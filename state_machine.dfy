/**
 * The StateMachine component as an object: its fields are the engine's
 * mutable state, and each method updates them in place as the component
 * does. Every method is proved to leave the object in exactly the state the
 * matching StateEngine function describes, so the properties proved there
 * hold of the object.
 */
module StateMachines {
  import opened Wrappers
  import opened StateRegistry
  import opened StateEngine

  class StateMachine {
    /** The state table the constructor built; it never changes. */
    const registry: Registry
    /** The state bodies, one action per call. */
    const body: Body

    var shouldEngage: bool
    var engaged: bool
    var current: Option<string>
    var start: real
    var verbose: bool
    /** The ran, startTime and expires fields of every state's data, by state name. */
    var runtime: map<string, Runtime>
    /** Every body call made so far. */
    ghost var calls: seq<Call>

    ghost function Snapshot(): Machine
      reads this
    {
      Machine(shouldEngage, engaged, current, start, verbose, runtime, calls)
    }

    ghost predicate Valid()
      reads this
    {
      RegistryOk(registry) && ValidMachine(registry, Snapshot())
    }

    /** A machine over an already validated table, with no state current and every state unrun. */
    constructor (reg: Registry, body: Body)
      requires RegistryOk(reg)
      ensures Valid() && registry == reg && this.body == body
      ensures Snapshot() == Initial(reg)
    {
      registry := reg;
      this.body := body;
      shouldEngage := false;
      engaged := false;
      current := None;
      start := 0.0;
      verbose := false;
      runtime := map k | k in reg.states :: Unrun;
      calls := [];
    }

    /** The component constructor: validate the declared states, then build the machine, or report why not. */
    static method Create(decls: seq<Decl>, body: Body) returns (r: Result<StateMachine, ConfigError>)
      ensures r.Failure? <==> RegistryOf(decls).Failure?
      ensures r.Failure? ==> r.error == RegistryOf(decls).error
      ensures r.Success? ==>
        && fresh(r.value) && r.value.Valid()
        && r.value.registry == RegistryOf(decls).value && r.value.body == body
        && r.value.Snapshot() == Initial(r.value.registry)
    {
      var reg := Build(decls);
      if reg.Failure? {
        return Failure(reg.error);
      }
      BuildOk(decls);
      var sm := new StateMachine(reg.value, body);
      return Success(sm);
    }

    function IsExecuting(): (r: bool)
      reads this
      ensures r == StateEngine.IsExecuting(Snapshot())
    {
      engaged
    }

    function CurrentState(): (r: string)
      reads this
      ensures r == StateEngine.CurrentState(Snapshot())
    {
      match current
      case None => ""
      case Some(name) => name
    }

    method NextState(name: string) returns (failure: Option<EngineError>)
      requires Valid()
      modifies this
      ensures Valid()
      ensures Step(Snapshot(), failure) == StateEngine.NextState(registry, old(Snapshot()), name)
    {
      if name !in registry.states {
        return Some(UnknownState(name));
      }
      runtime := runtime[name := runtime[name].(ran := false)];
      current := Some(name);
      return None;
    }

    method Engage(initial: Option<string>, force: bool) returns (failure: Option<EngineError>)
      requires Valid()
      modifies this
      ensures Valid()
      ensures Step(Snapshot(), failure) == StateEngine.Engage(registry, old(Snapshot()), initial, force)
    {
      shouldEngage := true;
      if force || current.None? || current == registry.default {
        match initial
        case Some(name) =>
          failure := NextState(name);
        case None =>
          failure := NextState(registry.first);
      } else {
        failure := None;
      }
    }

    method Done()
      requires Valid()
      modifies this
      ensures Valid()
      ensures Snapshot() == StateEngine.Done(old(Snapshot()))
    {
      current := None;
      engaged := false;
    }

    /** Leaving a robot mode stops the machine. */
    method OnDisabled()
      requires Valid()
      modifies this
      ensures Valid()
      ensures Snapshot() == StateEngine.Done(old(Snapshot()))
    {
      Done();
    }

    method NextStateNow(name: string, now: real, fuel: nat) returns (failure: Option<EngineError>)
      requires Valid()
      modifies this
      ensures Valid()
      ensures Step(Snapshot(), failure) == StateEngine.NextStateNow(registry, body, old(Snapshot()), name, now, fuel)
      decreases fuel, 4
    {
      failure := NextState(name);
      if failure.None? {
        failure := Execute(now, fuel);
      }
    }

    /** One tick at clock reading now; fuel bounds the nextStateNow chains started in it. */
    method Execute(now: real, fuel: nat) returns (failure: Option<EngineError>)
      requires Valid()
      modifies this
      ensures Valid()
      ensures Step(Snapshot(), failure) == StateEngine.Execute(registry, body, old(Snapshot()), now, fuel)
      decreases fuel, 3
    {
      if !engaged && !shouldEngage && registry.default.None? {
        return None;
      }
      ghost var m0 := Snapshot();
      var state, newStart, selectFailure := SelectState(now);
      if selectFailure.Some? {
        ExecuteSelectFails(registry, body, m0, now, fuel, selectFailure.value);
        return selectFailure;
      }
      ghost var sel := Selection(Snapshot(), state, newStart);
      var tm := now - start;
      match state
      case None =>
        ExecuteSelectsNothing(registry, body, m0, now, fuel, sel);
        Done();
        shouldEngage := false;
        failure := None;
      case Some(c) =>
        ExecuteSelected(registry, body, m0, now, fuel, sel);
        assert tm == Elapsed(m0, now);
        failure := Dispatch(c, newStart, tm, now, fuel);
        assert Step(Snapshot(), failure) == StateEngine.Dispatch(registry, body, sel.m, c, newStart, tm, now, fuel);
    }

    /** The state a tick runs: start the run if asked to, then the expiry and deactivation checks. */
    method SelectState(now: real) returns (state: Option<string>, newStart: real, failure: Option<EngineError>)
      requires Valid()
      modifies this
      ensures Valid()
      ensures var e := Select(registry, old(Snapshot()), now);
        && (e.Failure? ==> failure == Some(e.error) && Snapshot() == Begin(old(Snapshot()), now))
        && (e.Success? ==> failure.None? && e.value == Selection(Snapshot(), state, newStart))
    {
      ghost var m0 := Snapshot();
      if !engaged && shouldEngage {
        start := now;
        engaged := true;
      }
      ghost var m1 := Snapshot();
      assert m1 == Begin(m0, now);
      var tm := now - start;
      state, newStart, failure := CheckExpiry(tm);
      if failure.Some? {
        assert Select(registry, m0, now) == Failure(failure.value);
        return;
      }
      ghost var sel := Selection(Snapshot(), state, newStart);
      assert Expire(registry, m1, tm) == Success(sel);
      state := FallBack(state, newStart);
      assert Select(registry, m0, now) == Success(Retain(registry, sel));
    }

    /** The expiry check of a tick, with drift compensation: the successor starts when its predecessor expired. */
    method CheckExpiry(tm: real) returns (state: Option<string>, newStart: real, failure: Option<EngineError>)
      requires Valid()
      modifies this
      ensures Valid()
      ensures var e := Expire(registry, old(Snapshot()), tm);
        && (e.Failure? ==> failure == Some(e.error) && Snapshot() == old(Snapshot()))
        && (e.Success? ==> failure.None? && e.value == Selection(Snapshot(), state, newStart))
    {
      state := current;
      newStart := tm;
      failure := None;
      if state.Some? && Expired(runtime[state.value], tm) {
        var c := state.value;
        newStart := runtime[c].expires.time;
        match registry.states[c].next
        case None =>
          if shouldEngage {
            failure := NextState(registry.first);
            state := current;
          } else {
            state := None;
          }
        case Some(n) =>
          failure := NextState(n);
          state := current;
      }
    }

    /** Deactivation without engagement unless mustFinish, then the fall back to the default state. */
    method FallBack(selected: Option<string>, ghost newStart: real) returns (state: Option<string>)
      requires Valid() && (selected.Some? ==> selected.value in registry.states)
      modifies this
      ensures Valid()
      ensures Retain(registry, Selection(old(Snapshot()), selected, newStart)) == Selection(Snapshot(), state, newStart)
    {
      state := selected;
      if state.Some? && !shouldEngage && !registry.states[state.value].mustFinish {
        state := None;
      }
      if state.None? && registry.default.Some? {
        var d := registry.default.value;
        state := registry.default;
        if current != registry.default {
          current := registry.default;
          runtime := runtime[d := runtime[d].(ran := false)];
        }
      }
    }

    /** Enter the selected state if it has not run, call its body, and act on what the body asked for. */
    method Dispatch(c: string, newStart: real, tm: real, now: real, fuel: nat) returns (failure: Option<EngineError>)
      requires Valid() && c in registry.states
      modifies this
      ensures Valid()
      ensures Step(Snapshot(), failure) == StateEngine.Dispatch(registry, body, old(Snapshot()), c, newStart, tm, now, fuel)
      decreases fuel, 2
    {
      ghost var m0 := Snapshot();
      var stateTime, initialCall := EnterState(c, newStart, tm);
      var action := body(c, stateTime, initialCall);
      failure := React(action, now, fuel);
      DispatchReacts(registry, body, m0, c, newStart, tm, now, fuel);
    }

    /** Mark the state as run, starting at newStart, on its initial call; record the body call it gets. */
    method EnterState(c: string, newStart: real, tm: real) returns (stateTime: real, initialCall: bool)
      requires Valid() && c in registry.states
      modifies this
      ensures Valid()
      ensures Snapshot() == Enter(registry, old(Snapshot()), c, newStart, tm)
      ensures Call(c, stateTime, initialCall) == CallOn(registry, old(Snapshot()), c, newStart, tm)
    {
      initialCall := !runtime[c].ran;
      if initialCall {
        runtime := runtime[c := Runtime(true, newStart, ExpiryAfter(newStart, registry.states[c].duration))];
      }
      stateTime := tm - runtime[c].startTime;
      calls := calls + [Call(c, stateTime, initialCall)];
    }

    /** Carry out what the body asked for, then clear the engage latch unless that threw. */
    method React(action: Action, now: real, fuel: nat) returns (failure: Option<EngineError>)
      requires Valid()
      modifies this
      ensures Valid()
      ensures Step(Snapshot(), failure) == StateEngine.React(registry, body, old(Snapshot()), action, now, fuel)
      decreases fuel, 1
    {
      match action {
        case Continue =>
        case Stop =>
          Done();
        case GoTo(n) =>
          failure := NextState(n);
          if failure.Some? {
            return;
          }
        case GoToNow(n) =>
          failure := GoNow(n, now, fuel);
          return;
      }
      shouldEngage := false;
      failure := None;
    }

    /** nextStateNow from inside a body: the machine runs again within this tick, one level deeper. */
    method GoNow(n: string, now: real, fuel: nat) returns (failure: Option<EngineError>)
      requires Valid()
      modifies this
      ensures Valid()
      ensures fuel == 0 ==> failure == Some(RecursionLimit) && Snapshot() == old(Snapshot())
      ensures fuel > 0 ==>
        Step(Snapshot(), failure) == Finish(StateEngine.NextStateNow(registry, body, old(Snapshot()), n, now, fuel - 1))
      decreases fuel, 0
    {
      if fuel == 0 {
        return Some(RecursionLimit);
      }
      failure := NextStateNow(n, now, fuel - 1);
      if failure.None? {
        shouldEngage := false;
      }
    }
  }
}
