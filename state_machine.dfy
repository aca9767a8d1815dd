/** The generic state machine of StateMachine.hpp: a registry of states keyed by their type, one
    current state, and the Enter/Exit/BeforeUpdate/Update/AfterUpdate hooks recorded as a trace. */
module StateMachines {
  import opened Wrappers

  /** A C++ type id. `NullType` is `typeid(nullptr_t)`, the initial value of both type fields. */
  datatype TypeId = NullType | StateType(name: string)

  /** An entry of the `states` map: `Empty` is the null `unique_ptr` that `operator[]` inserts
      for a missing key, `Holds` a state object constructed by Add and wired to the machine. */
  datatype Slot = Empty | Holds

  /** A call of one of the virtual hooks of the current state. */
  datatype Hook =
    | Enter(state: TypeId)
    | Exit(state: TypeId)
    | BeforeUpdate(state: TypeId)
    | UpdateHook(state: TypeId, deltaSeconds: real)
    | AfterUpdate(state: TypeId)

  class StateMachine {
    var states: map<TypeId, Slot>
    /** The current state object, named by the type it was registered under (None is nullptr). */
    var currentState: Option<TypeId>
    var currentStateType: TypeId
    var previousStateType: TypeId
    /** Every hook called so far, in order. */
    ghost var trace: seq<Hook>

    predicate Registered(t: TypeId)
      reads this
    {
      t in states && states[t] == Holds
    }

    /** The current object is the registered state of the current type; with no current state the
        type is still nullptr_t; the previous type was current once. */
    predicate Valid()
      reads this
    {
      && NullType !in states
      && (currentState.Some? ==> currentState.value == currentStateType && Registered(currentStateType))
      && (currentState.None? ==> currentStateType == NullType)
      && (previousStateType == NullType || Registered(previousStateType))
    }

    constructor()
      ensures Valid()
      ensures states == map[] && currentState == None
      ensures currentStateType == NullType && previousStateType == NullType
      ensures trace == []
    {
      states := map[];
      currentState := None;
      currentStateType := NullType;
      previousStateType := NullType;
      trace := [];
    }

    /** `Add<StateType>`: registers a new state under its type; `emplace` keeps an existing entry,
        even a null one. */
    method Add(stateId: TypeId)
      requires Valid() && stateId.StateType?
      modifies this
      ensures Valid()
      ensures stateId in old(states) ==> states == old(states)
      ensures stateId !in old(states) ==> states == old(states)[stateId := Holds]
      ensures currentState == old(currentState) && currentStateType == old(currentStateType)
      ensures previousStateType == old(previousStateType) && trace == old(trace)
    {
      if stateId !in states {
        states := states[stateId := Holds];
      }
    }

    /** `SetState<StateType>(allowRestart)`. The lookup `states[stateId]` inserts a null entry for a
        type never added; calling Enter through it is undefined, so the target must be registered
        unless the call returns early (target and current state both null, no restart). */
    method SetState(stateId: TypeId, allowRestart: bool)
      requires Valid() && stateId.StateType?
      requires Registered(stateId) || (!allowRestart && currentState.None?)
      modifies this
      ensures Valid()
      ensures states == if stateId in old(states) then old(states) else old(states)[stateId := Empty]
      ensures !allowRestart && old(currentState) == TargetOf(old(states), stateId) ==>
        && currentState == old(currentState) && currentStateType == old(currentStateType)
        && previousStateType == old(previousStateType) && trace == old(trace)
      ensures allowRestart || old(currentState) != TargetOf(old(states), stateId) ==>
        && currentState == Some(stateId) && currentStateType == stateId
        && previousStateType == old(currentStateType)
        && trace == old(trace) + ExitHook(old(currentState)) + [Enter(stateId)]
    {
      if stateId !in states {
        states := states[stateId := Empty];
      }
      var targetState := if states[stateId] == Holds then Some(stateId) else None;

      if !allowRestart && currentState == targetState {
        return;
      }

      if currentState.Some? {
        trace := trace + [Exit(currentState.value)];
      }

      previousStateType := currentStateType;
      currentStateType := stateId;

      currentState := targetState;
      trace := trace + [Enter(stateId)];
    }

    /** The same transition with a lookup that does not insert into the registry. */
    method SetStateWithoutInsert(stateId: TypeId, allowRestart: bool)
      requires Valid() && stateId.StateType?
      requires Registered(stateId) || (!allowRestart && currentState.None?)
      modifies this
      ensures Valid()
      ensures states == old(states)
      ensures !allowRestart && old(currentState) == TargetOf(old(states), stateId) ==>
        && currentState == old(currentState) && currentStateType == old(currentStateType)
        && previousStateType == old(previousStateType) && trace == old(trace)
      ensures allowRestart || old(currentState) != TargetOf(old(states), stateId) ==>
        && currentState == Some(stateId) && currentStateType == stateId
        && previousStateType == old(currentStateType)
        && trace == old(trace) + ExitHook(old(currentState)) + [Enter(stateId)]
    {
      var targetState := TargetOf(states, stateId);

      if !allowRestart && currentState == targetState {
        return;
      }

      if currentState.Some? {
        trace := trace + [Exit(currentState.value)];
      }

      previousStateType := currentStateType;
      currentStateType := stateId;

      currentState := targetState;
      trace := trace + [Enter(stateId)];
    }

    /** `Update(deltaSeconds)`: with no current state nothing happens; otherwise the three update
        hooks of the current state run once each, in order. */
    method Update(deltaSeconds: real)
      requires Valid()
      modifies this
      ensures Valid()
      ensures states == old(states) && currentState == old(currentState)
      ensures currentStateType == old(currentStateType) && previousStateType == old(previousStateType)
      ensures old(currentState).None? ==> trace == old(trace)
      ensures old(currentState).Some? ==> var s := old(currentState).value;
        trace == old(trace) + [BeforeUpdate(s), UpdateHook(s, deltaSeconds), AfterUpdate(s)]
    {
      if currentState.None? {
        return;
      }
      var s := currentState.value;
      trace := trace + [BeforeUpdate(s)];
      trace := trace + [UpdateHook(s, deltaSeconds)];
      trace := trace + [AfterUpdate(s)];
    }
  }

  /** The object `states[stateId]` points at: the registered state, or null. */
  function TargetOf(states: map<TypeId, Slot>, stateId: TypeId): (r: Option<TypeId>)
    ensures r.Some? <==> stateId in states && states[stateId] == Holds
    ensures r.Some? ==> r.value == stateId
  {
    if stateId in states && states[stateId] == Holds then Some(stateId) else None
  }

  /** The Exit hook of the state being left, if there is one. */
  function ExitHook(current: Option<TypeId>): (r: seq<Hook>)
    ensures current.None? <==> r == []
    ensures current.Some? ==> r == [Exit(current.value)]
  {
    if current.Some? then [Exit(current.value)] else []
  }

  /** Calling SetState for a type before adding it leaves a null entry that a later Add does not
      replace: the type can never become a valid target. */
  method SetStateBeforeAdd(t: TypeId) returns (machine: StateMachine)
    requires t.StateType?
    ensures machine.Valid()
    ensures t in machine.states && machine.states[t] == Empty && !machine.Registered(t)
  {
    machine := new StateMachine();
    machine.SetState(t, false);
    machine.Add(t);
  }

  /** With the non-inserting lookup the same sequence registers the type, and it can then be entered. */
  method SetStateWithoutInsertBeforeAdd(t: TypeId) returns (machine: StateMachine)
    requires t.StateType?
    ensures machine.Valid()
    ensures machine.Registered(t)
    ensures machine.currentState == Some(t) && machine.trace == [Enter(t)]
  {
    machine := new StateMachine();
    machine.SetStateWithoutInsert(t, false);
    machine.Add(t);
    machine.SetStateWithoutInsert(t, false);
  }

  /** Two transitions in a row: Exit of the first target runs before Enter of the second, and the
      previous type is the first target. */
  method TwoTransitions(a: TypeId, b: TypeId) returns (machine: StateMachine)
    requires a.StateType? && b.StateType? && a != b
    ensures machine.Valid()
    ensures machine.currentStateType == b && machine.previousStateType == a
    ensures machine.trace == [Enter(a), Exit(a), Enter(b)]
  {
    machine := new StateMachine();
    machine.Add(a);
    machine.Add(b);
    machine.SetState(a, false);
    machine.SetState(b, false);
  }

  /** Re-entering the current state without restart changes nothing; with restart it runs Exit then Enter. */
  method Reenter(a: TypeId) returns (quiet: StateMachine, restarted: StateMachine)
    requires a.StateType?
    ensures quiet.trace == [Enter(a)] && quiet.previousStateType == NullType
    ensures restarted.trace == [Enter(a), Exit(a), Enter(a)] && restarted.previousStateType == a
  {
    quiet := new StateMachine();
    quiet.Add(a);
    quiet.SetState(a, false);
    quiet.SetState(a, false);
    restarted := new StateMachine();
    restarted.Add(a);
    restarted.SetState(a, false);
    restarted.SetState(a, true);
  }
}
