/**
 * AutonomousStateMachine: a latch on top of a state machine that engages and
 * executes it on every periodic call of an autonomous mode, until the machine
 * stops executing, and then stays quiet until the mode is enabled again.
 * The pure functions describe one call each; the class below is proved to
 * follow them.
 */
module Autonomous {
  import opened Wrappers
  import opened StateRegistry
  import opened StateEngine
  import opened StateMachines

  /** The adapter's own latch (its private m_engaged) beside the machine it drives. */
  datatype Adapter = Adapter(latch: bool, m: Machine)

  /** The adapter after a call, and the error the call threw, if any. */
  datatype AdapterStep = AdapterStep(after: Adapter, failure: Option<EngineError>)

  /** onEnabled: arm the latch and switch verbose logging on; nothing else changes. */
  function Enable(a: Adapter): (r: Adapter)
    ensures r.latch && r.m.verbose
    ensures r.m.(verbose := a.m.verbose) == a.m
  {
    Adapter(true, a.m.(verbose := true))
  }

  /** onDisabled, inherited from the state machine: done(); the latch is left as it is. */
  function Disable(a: Adapter): (r: Adapter)
    ensures r.latch == a.latch && r.m == Done(a.m)
  {
    a.(m := Done(a.m))
  }

  /** autonomousPeriodic: while latched, engage() and execute(), then latch on isExecuting(). */
  function Periodic(reg: Registry, body: Body, a: Adapter, now: real, fuel: nat): (r: AdapterStep)
    requires RegistryOk(reg) && ValidMachine(reg, a.m)
    ensures ValidMachine(reg, r.after.m)
    ensures !a.latch ==> r == AdapterStep(a, None)
    ensures a.latch && r.failure.None? ==> r.after.latch == IsExecuting(r.after.m) && !r.after.m.shouldEngage
    ensures a.latch && r.failure.Some? ==> r.after.latch
  {
    if !a.latch then AdapterStep(a, None)
    else
      var e := Engage(reg, a.m, None, false);
      if e.failure.Some? then AdapterStep(Adapter(true, e.after), e.failure)
      else
        var x := Execute(reg, body, e.after, now, fuel);
        if x.failure.Some? then AdapterStep(Adapter(true, x.after), x.failure)
        else AdapterStep(Adapter(IsExecuting(x.after), x.after), None)
  }

  /** Periodic calls at the clock readings nows, in order, until one throws. */
  function Ticks(reg: Registry, body: Body, a: Adapter, nows: seq<real>, fuel: nat): (r: AdapterStep)
    requires RegistryOk(reg) && ValidMachine(reg, a.m)
    ensures ValidMachine(reg, r.after.m)
    decreases |nows|
  {
    if nows == [] then AdapterStep(a, None)
    else
      var s := Periodic(reg, body, a, nows[0], fuel);
      if s.failure.Some? then s else Ticks(reg, body, s.after, nows[1..], fuel)
  }

  /** engage() with no initial state never throws: it can only switch to the first state, which exists. */
  lemma EngageDefaultSucceeds(reg: Registry, m: Machine)
    requires RegistryOk(reg) && ValidMachine(reg, m)
    ensures var e := Engage(reg, m, None, false);
      && e.failure.None? && e.after.shouldEngage && e.after.current.Some?
      && (Switches(reg, m, false) ==> e.after.current == Some(reg.first) && !e.after.runtime[reg.first].ran)
      && (!Switches(reg, m, false) ==> e.after.current == m.current)
  {
  }

  /**
   * A latched periodic call always runs a state body, because engage() is
   * issued first: states are never dropped for lack of engagement, and the
   * latch falls only when some body of this call asked for done().
   */
  lemma LatchedTickRuns(reg: Registry, body: Body, a: Adapter, now: real, fuel: nat)
    requires RegistryOk(reg) && ValidMachine(reg, a.m) && a.latch
    ensures var r := Periodic(reg, body, a, now, fuel);
      r.failure.None? ==>
        && |r.after.m.calls| > |a.m.calls|
        && (!r.after.latch ==> StopRequested(body, r.after.m.calls, |a.m.calls|))
  {
    var e := Engage(reg, a.m, None, false);
    EngageDefaultSucceeds(reg, a.m);
    EngagedTickRuns(reg, body, e.after, now, fuel);
  }

  /** While the latch is down, any number of periodic calls leave everything as it was. */
  lemma {:induction false} QuietWhileUnlatched(reg: Registry, body: Body, a: Adapter, nows: seq<real>, fuel: nat)
    requires RegistryOk(reg) && ValidMachine(reg, a.m) && !a.latch
    ensures Ticks(reg, body, a, nows, fuel) == AdapterStep(a, None)
    decreases |nows|
  {
    if nows != [] {
      QuietWhileUnlatched(reg, body, a, nows[1..], fuel);
    }
  }

  /**
   * The routine runs once per enable: once a periodic call finds the machine
   * no longer executing, every later periodic call is a no-op until the next
   * onEnabled.
   */
  lemma RunsOncePerEnable(reg: Registry, body: Body, a: Adapter, now: real, nows: seq<real>, fuel: nat)
    requires RegistryOk(reg) && ValidMachine(reg, a.m)
    requires var r := Periodic(reg, body, a, now, fuel); r.failure.None? && !IsExecuting(r.after.m)
    ensures var r := Periodic(reg, body, a, now, fuel);
      Ticks(reg, body, r.after, nows, fuel) == AdapterStep(r.after, None)
  {
    var r := Periodic(reg, body, a, now, fuel);
    QuietWhileUnlatched(reg, body, r.after, nows, fuel);
  }

  /** onEnabled re-arms the adapter, so a machine that was stopped runs again on the next periodic call. */
  lemma EnableRestarts(reg: Registry, body: Body, a: Adapter, now: real, fuel: nat)
    requires RegistryOk(reg) && ValidMachine(reg, a.m)
    ensures var r := Periodic(reg, body, Enable(a), now, fuel);
      r.failure.None? ==> |r.after.m.calls| > |a.m.calls|
  {
    LatchedTickRuns(reg, body, Enable(a), now, fuel);
  }

  class AutonomousStateMachine {
    /** The state machine this adapter extends. */
    const machine: StateMachine
    var latch: bool

    ghost function Snapshot(): Adapter
      reads this, machine
    {
      Adapter(latch, machine.Snapshot())
    }

    ghost predicate Valid()
      reads this, machine
    {
      machine.Valid()
    }

    constructor (machine: StateMachine)
      requires machine.Valid()
      ensures Valid() && this.machine == machine && !latch
      ensures Snapshot() == Adapter(false, old(machine.Snapshot()))
    {
      this.machine := machine;
      latch := false;
    }

    /** Build the underlying machine from the declared states, unlatched. */
    static method Create(decls: seq<Decl>, body: Body) returns (r: Result<AutonomousStateMachine, ConfigError>)
      ensures r.Failure? <==> RegistryOf(decls).Failure?
      ensures r.Failure? ==> r.error == RegistryOf(decls).error
      ensures r.Success? ==>
        && fresh(r.value) && fresh(r.value.machine) && r.value.Valid()
        && r.value.machine.registry == RegistryOf(decls).value && r.value.machine.body == body
        && r.value.Snapshot() == Adapter(false, Initial(r.value.machine.registry))
    {
      var sm := StateMachine.Create(decls, body);
      if sm.Failure? {
        return Failure(sm.error);
      }
      var asm := new AutonomousStateMachine(sm.value);
      return Success(asm);
    }

    method OnEnabled()
      requires Valid()
      modifies this, machine
      ensures Valid()
      ensures Snapshot() == Enable(old(Snapshot()))
    {
      latch := true;
      machine.verbose := true;
    }

    method OnDisabled()
      requires Valid()
      modifies this, machine
      ensures Valid()
      ensures Snapshot() == Disable(old(Snapshot()))
    {
      machine.OnDisabled();
    }

    method AutonomousPeriodic(now: real, fuel: nat) returns (failure: Option<EngineError>)
      requires Valid()
      modifies this, machine
      ensures Valid()
      ensures AdapterStep(Snapshot(), failure) == Periodic(machine.registry, machine.body, old(Snapshot()), now, fuel)
    {
      if latch {
        failure := machine.Engage(None, false);
        if failure.Some? {
          return;
        }
        failure := machine.Execute(now, fuel);
        if failure.Some? {
          return;
        }
        latch := machine.IsExecuting();
      } else {
        failure := None;
      }
    }
  }
}
