/**
 * The TestStateMachine1 scenario of the component's unit tests, replayed on
 * the engine: a first state that moves on to a one-second timed state, which
 * is followed by a plain state, driven by engage, execute and done calls at
 * clock readings of 0, 1.5 and 3 seconds. The three state names are kept
 * abstract: the scenario holds for any three distinct names.
 */
module Scenarios {
  import opened Wrappers
  import opened StateRegistry
  import opened StateEngine

  /** A call the test makes on the machine. */
  datatype Op = EngageOp(initial: Option<string>, force: bool) | ExecuteOp(now: real) | DoneOp

  /** What the test observes after each call: getCurrentState() and isExecuting(). */
  datatype Seen = Seen(current: string, executing: bool)

  function Perform(reg: Registry, body: Body, m: Machine, op: Op, fuel: nat): (r: Step)
    requires RegistryOk(reg) && ValidMachine(reg, m)
    ensures ValidMachine(reg, r.after)
    ensures op.DoneOp? ==> r == Step(Done(m), None)
  {
    match op
    case EngageOp(initial, force) => Engage(reg, m, initial, force)
    case ExecuteOp(now) => Execute(reg, body, m, now, fuel)
    case DoneOp => Step(Done(m), None)
  }

  /** The calls ops made in order, with what was seen after each; stops at the first that throws. */
  function Replay(reg: Registry, body: Body, m: Machine, ops: seq<Op>, fuel: nat): (r: (Step, seq<Seen>))
    requires RegistryOk(reg) && ValidMachine(reg, m)
    ensures ValidMachine(reg, r.0.after)
    ensures |r.1| <= |ops|
    decreases |ops|
  {
    if ops == [] then (Step(m, None), [])
    else
      var s := Perform(reg, body, m, ops[0], fuel);
      var seen := Seen(CurrentState(s.after), IsExecuting(s.after));
      if s.failure.Some? then (s, [seen])
      else
        var rest := Replay(reg, body, s.after, ops[1..], fuel);
        (rest.0, [seen] + rest.1)
  }

  /** The names of the test's three states: first_state, second_state and third_state. */
  datatype Names = Names(first: string, second: string, third: string)

  /** Three different names, and a third name that is not the empty "no next state" marker. */
  predicate Distinct(n: Names) {
    n.first != n.second && n.first != n.third && n.second != n.third && n.third != ""
  }

  const TestNames: Names := Names("first_state", "second_state", "third_state")

  /** The three annotated methods: @State(first=true), @TimedState(duration=1, nextState=third) and @State. */
  function TestDecls(n: Names): seq<Decl> {
    [Decl(n.first, Some(StateAnn(true, false)), None, false),
     Decl(n.second, None, Some(TimedAnn(1.0, n.third, false, false)), false),
     Decl(n.third, Some(StateAnn(false, false)), None, false)]
  }

  function TestRegistry(n: Names): Registry {
    Registry(
      map[
        n.first := StateInfo(n.first, Forever, None, true, false, false),
        n.second := StateInfo(n.second, Seconds(1.0), Some(n.third), false, false, false),
        n.third := StateInfo(n.third, Forever, None, false, false, false)],
      n.first,
      None)
  }

  /** The first state asks for the second; the other two bodies only run. */
  function TestBody(n: Names): Body {
    (name: string, stateTime: real, initialCall: bool) => if name == n.first then GoTo(n.second) else Continue
  }

  /** The test's calls, in order. */
  function TestOps(n: Names): seq<Op> {
    [EngageOp(None, false),
     ExecuteOp(0.0),
     EngageOp(None, false),
     ExecuteOp(0.0),
     EngageOp(None, false),
     ExecuteOp(1.5),
     EngageOp(None, false),
     ExecuteOp(1.5),
     DoneOp,
     EngageOp(Some(n.second), false),
     ExecuteOp(1.5),
     EngageOp(None, false),
     ExecuteOp(3.0),
     EngageOp(None, false),
     ExecuteOp(3.0),
     EngageOp(None, true),
     ExecuteOp(3.0),
     ExecuteOp(3.0)]
  }

  /** The test machine with the given fields; verbose logging plays no part in the test. */
  function TestMachine(n: Names, shouldEngage: bool, engaged: bool, current: Option<string>, start: real,
                       first: Runtime, second: Runtime, third: Runtime, calls: seq<Call>): Machine
  {
    Machine(shouldEngage, engaged, current, start, false,
      map[n.first := first, n.second := second, n.third := third], calls)
  }

  /** A test machine whose runtimes agree with the test's durations is a valid machine of the test registry. */
  lemma TestMachineValid(n: Names, shouldEngage: bool, engaged: bool, current: Option<string>, start: real,
                         first: Runtime, second: Runtime, third: Runtime, calls: seq<Call>)
    requires Distinct(n)
    requires current.None? || current.value == n.first || current.value == n.second || current.value == n.third
    requires first.expires == Never && third.expires == Never
    requires second.expires.At? ==> second.expires.time == second.startTime + 1.0
    ensures ValidMachine(TestRegistry(n), TestMachine(n, shouldEngage, engaged, current, start, first, second, third, calls))
  {
  }

  /** nextState on a test machine, field by field. */
  lemma NextStateOnTest(n: Names, shouldEngage: bool, engaged: bool, current: Option<string>, start: real,
                        first: Runtime, second: Runtime, third: Runtime, calls: seq<Call>, k: string)
    requires Distinct(n) && (k == n.first || k == n.second || k == n.third)
    requires ValidMachine(TestRegistry(n), TestMachine(n, shouldEngage, engaged, current, start, first, second, third, calls))
    ensures NextState(TestRegistry(n), TestMachine(n, shouldEngage, engaged, current, start, first, second, third, calls), k) ==
      Step(TestMachine(n, shouldEngage, engaged, Some(k), start,
        if k == n.first then first.(ran := false) else first,
        if k == n.second then second.(ran := false) else second,
        if k == n.third then third.(ran := false) else third, calls), None)
  {
    var rts := map[n.first := first, n.second := second, n.third := third];
    if k == n.first {
      assert rts[k := first.(ran := false)] == map[n.first := first.(ran := false), n.second := second, n.third := third];
    } else if k == n.second {
      assert rts[k := second.(ran := false)] == map[n.first := first, n.second := second.(ran := false), n.third := third];
    } else {
      assert rts[k := third.(ran := false)] == map[n.first := first, n.second := second, n.third := third.(ran := false)];
    }
  }

  /** The runtime a state has after being dispatched with the given start time. */
  function Entered(rt: Runtime, newStart: real, d: Duration): Runtime {
    if rt.ran then rt else Runtime(true, newStart, ExpiryAfter(newStart, d))
  }

  /** Entering a state of a test machine, field by field. */
  lemma EnterOnTest(n: Names, shouldEngage: bool, engaged: bool, current: Option<string>, start: real,
                    first: Runtime, second: Runtime, third: Runtime, calls: seq<Call>, c: string, newStart: real, tm: real)
    requires Distinct(n) && (c == n.first || c == n.second || c == n.third)
    requires ValidMachine(TestRegistry(n), TestMachine(n, shouldEngage, engaged, current, start, first, second, third, calls))
    ensures var m := TestMachine(n, shouldEngage, engaged, current, start, first, second, third, calls);
      Enter(TestRegistry(n), m, c, newStart, tm) ==
        TestMachine(n, shouldEngage, engaged, current, start,
          if c == n.first then Entered(first, newStart, Forever) else first,
          if c == n.second then Entered(second, newStart, Seconds(1.0)) else second,
          if c == n.third then Entered(third, newStart, Forever) else third,
          calls + [CallOn(TestRegistry(n), m, c, newStart, tm)])
  {
  }

  lemma TestRegistryOk(n: Names)
    requires Distinct(n)
    ensures RegistryOk(TestRegistry(n))
  {
  }

  lemma TestStep1(n: Names)
    requires Distinct(n) && RegistryOk(TestRegistry(n))
    requires ValidMachine(TestRegistry(n), TestMachine(n, false, false, None, 0.0,
      Unrun, Unrun, Unrun,
      []))
    ensures Engage(TestRegistry(n), TestMachine(n, false, false, None, 0.0,
      Unrun, Unrun, Unrun,
      []), None, false)
      == Step(TestMachine(n, true, false, Some(n.first), 0.0,
      Unrun, Unrun, Unrun,
      []), None)
  {
    TestMachineValid(n, true, false, None, 0.0,
      Unrun, Unrun, Unrun,
      []);
    NextStateOnTest(n, true, false, None, 0.0,
      Unrun, Unrun, Unrun,
      [],
      n.first);
  }

  lemma TestSelects2(n: Names)
    requires Distinct(n) && RegistryOk(TestRegistry(n))
    requires ValidMachine(TestRegistry(n), TestMachine(n, true, false, Some(n.first), 0.0,
      Unrun, Unrun, Unrun,
      []))
    ensures Select(TestRegistry(n), TestMachine(n, true, false, Some(n.first), 0.0,
      Unrun, Unrun, Unrun,
      []), 0.0)
      == Success(Selection(TestMachine(n, true, true, Some(n.first), 0.0,
        Unrun, Unrun, Unrun,
        []),
        Some(n.first), 0.0))
  {
  }

  lemma TestStep2(n: Names)
    requires Distinct(n) && RegistryOk(TestRegistry(n))
    requires ValidMachine(TestRegistry(n), TestMachine(n, true, false, Some(n.first), 0.0,
      Unrun, Unrun, Unrun,
      []))
    ensures Execute(TestRegistry(n), TestBody(n), TestMachine(n, true, false, Some(n.first), 0.0,
      Unrun, Unrun, Unrun,
      []), 0.0, 1)
      == Step(TestMachine(n, false, true, Some(n.second), 0.0,
      Runtime(true, 0.0, Never), Unrun, Unrun,
      [Call(n.first, 0.0, true)]), None)
  {
    var reg, body := TestRegistry(n), TestBody(n);
    var sel := Selection(TestMachine(n, true, true, Some(n.first), 0.0,
        Unrun, Unrun, Unrun,
        []),
        Some(n.first), 0.0);
    TestSelects2(n);
    TestMachineValid(n, true, true, Some(n.first), 0.0,
      Unrun, Unrun, Unrun,
      []);
    ExecuteDispatches(reg, body, TestMachine(n, true, false, Some(n.first), 0.0,
      Unrun, Unrun, Unrun,
      []), 0.0, 1, sel);
    EnterOnTest(n, true, true, Some(n.first), 0.0,
      Unrun, Unrun, Unrun,
      [],
      n.first, 0.0, 0.0);
    assert CallOn(reg, sel.m, n.first, 0.0, 0.0) == Call(n.first, 0.0, true);
    assert body(n.first, 0.0, true) == GoTo(n.second);
    TestMachineValid(n, true, true, Some(n.first), 0.0,
      Runtime(true, 0.0, Never), Unrun, Unrun,
      [Call(n.first, 0.0, true)]);
    NextStateOnTest(n, true, true, Some(n.first), 0.0,
      Runtime(true, 0.0, Never), Unrun, Unrun,
      [Call(n.first, 0.0, true)],
      n.second);
  }

  lemma TestStep3(n: Names)
    requires Distinct(n) && RegistryOk(TestRegistry(n))
    requires ValidMachine(TestRegistry(n), TestMachine(n, false, true, Some(n.second), 0.0,
      Runtime(true, 0.0, Never), Unrun, Unrun,
      [Call(n.first, 0.0, true)]))
    ensures Engage(TestRegistry(n), TestMachine(n, false, true, Some(n.second), 0.0,
      Runtime(true, 0.0, Never), Unrun, Unrun,
      [Call(n.first, 0.0, true)]), None, false)
      == Step(TestMachine(n, true, true, Some(n.second), 0.0,
      Runtime(true, 0.0, Never), Unrun, Unrun,
      [Call(n.first, 0.0, true)]), None)
  {
  }

  lemma TestSelects4(n: Names)
    requires Distinct(n) && RegistryOk(TestRegistry(n))
    requires ValidMachine(TestRegistry(n), TestMachine(n, true, true, Some(n.second), 0.0,
      Runtime(true, 0.0, Never), Unrun, Unrun,
      [Call(n.first, 0.0, true)]))
    ensures Select(TestRegistry(n), TestMachine(n, true, true, Some(n.second), 0.0,
      Runtime(true, 0.0, Never), Unrun, Unrun,
      [Call(n.first, 0.0, true)]), 0.0)
      == Success(Selection(TestMachine(n, true, true, Some(n.second), 0.0,
        Runtime(true, 0.0, Never), Unrun, Unrun,
        [Call(n.first, 0.0, true)]),
        Some(n.second), 0.0))
  {
  }

  lemma TestStep4(n: Names)
    requires Distinct(n) && RegistryOk(TestRegistry(n))
    requires ValidMachine(TestRegistry(n), TestMachine(n, true, true, Some(n.second), 0.0,
      Runtime(true, 0.0, Never), Unrun, Unrun,
      [Call(n.first, 0.0, true)]))
    ensures Execute(TestRegistry(n), TestBody(n), TestMachine(n, true, true, Some(n.second), 0.0,
      Runtime(true, 0.0, Never), Unrun, Unrun,
      [Call(n.first, 0.0, true)]), 0.0, 1)
      == Step(TestMachine(n, false, true, Some(n.second), 0.0,
      Runtime(true, 0.0, Never), Runtime(true, 0.0, At(1.0)), Unrun,
      [Call(n.first, 0.0, true), Call(n.second, 0.0, true)]), None)
  {
    var reg, body := TestRegistry(n), TestBody(n);
    var sel := Selection(TestMachine(n, true, true, Some(n.second), 0.0,
        Runtime(true, 0.0, Never), Unrun, Unrun,
        [Call(n.first, 0.0, true)]),
        Some(n.second), 0.0);
    TestSelects4(n);
    TestMachineValid(n, true, true, Some(n.second), 0.0,
      Runtime(true, 0.0, Never), Unrun, Unrun,
      [Call(n.first, 0.0, true)]);
    ExecuteDispatches(reg, body, TestMachine(n, true, true, Some(n.second), 0.0,
      Runtime(true, 0.0, Never), Unrun, Unrun,
      [Call(n.first, 0.0, true)]), 0.0, 1, sel);
    EnterOnTest(n, true, true, Some(n.second), 0.0,
      Runtime(true, 0.0, Never), Unrun, Unrun,
      [Call(n.first, 0.0, true)],
      n.second, 0.0, 0.0);
    assert CallOn(reg, sel.m, n.second, 0.0, 0.0) == Call(n.second, 0.0, true);
    assert body(n.second, 0.0, true) == Continue;
  }

  lemma TestStep5(n: Names)
    requires Distinct(n) && RegistryOk(TestRegistry(n))
    requires ValidMachine(TestRegistry(n), TestMachine(n, false, true, Some(n.second), 0.0,
      Runtime(true, 0.0, Never), Runtime(true, 0.0, At(1.0)), Unrun,
      [Call(n.first, 0.0, true), Call(n.second, 0.0, true)]))
    ensures Engage(TestRegistry(n), TestMachine(n, false, true, Some(n.second), 0.0,
      Runtime(true, 0.0, Never), Runtime(true, 0.0, At(1.0)), Unrun,
      [Call(n.first, 0.0, true), Call(n.second, 0.0, true)]), None, false)
      == Step(TestMachine(n, true, true, Some(n.second), 0.0,
      Runtime(true, 0.0, Never), Runtime(true, 0.0, At(1.0)), Unrun,
      [Call(n.first, 0.0, true), Call(n.second, 0.0, true)]), None)
  {
  }

  lemma TestSelects6(n: Names)
    requires Distinct(n) && RegistryOk(TestRegistry(n))
    requires ValidMachine(TestRegistry(n), TestMachine(n, true, true, Some(n.second), 0.0,
      Runtime(true, 0.0, Never), Runtime(true, 0.0, At(1.0)), Unrun,
      [Call(n.first, 0.0, true), Call(n.second, 0.0, true)]))
    ensures Select(TestRegistry(n), TestMachine(n, true, true, Some(n.second), 0.0,
      Runtime(true, 0.0, Never), Runtime(true, 0.0, At(1.0)), Unrun,
      [Call(n.first, 0.0, true), Call(n.second, 0.0, true)]), 1.5)
      == Success(Selection(TestMachine(n, true, true, Some(n.third), 0.0,
        Runtime(true, 0.0, Never), Runtime(true, 0.0, At(1.0)), Unrun,
        [Call(n.first, 0.0, true), Call(n.second, 0.0, true)]),
        Some(n.third), 1.0))
  {
    NextStateOnTest(n, true, true, Some(n.second), 0.0,
      Runtime(true, 0.0, Never), Runtime(true, 0.0, At(1.0)), Unrun,
      [Call(n.first, 0.0, true), Call(n.second, 0.0, true)],
      n.third);
  }

  lemma TestStep6(n: Names)
    requires Distinct(n) && RegistryOk(TestRegistry(n))
    requires ValidMachine(TestRegistry(n), TestMachine(n, true, true, Some(n.second), 0.0,
      Runtime(true, 0.0, Never), Runtime(true, 0.0, At(1.0)), Unrun,
      [Call(n.first, 0.0, true), Call(n.second, 0.0, true)]))
    ensures Execute(TestRegistry(n), TestBody(n), TestMachine(n, true, true, Some(n.second), 0.0,
      Runtime(true, 0.0, Never), Runtime(true, 0.0, At(1.0)), Unrun,
      [Call(n.first, 0.0, true), Call(n.second, 0.0, true)]), 1.5, 1)
      == Step(TestMachine(n, false, true, Some(n.third), 0.0,
      Runtime(true, 0.0, Never), Runtime(true, 0.0, At(1.0)), Runtime(true, 1.0, Never),
      [Call(n.first, 0.0, true), Call(n.second, 0.0, true), Call(n.third, 0.5, true)]), None)
  {
    var reg, body := TestRegistry(n), TestBody(n);
    var sel := Selection(TestMachine(n, true, true, Some(n.third), 0.0,
        Runtime(true, 0.0, Never), Runtime(true, 0.0, At(1.0)), Unrun,
        [Call(n.first, 0.0, true), Call(n.second, 0.0, true)]),
        Some(n.third), 1.0);
    TestSelects6(n);
    TestMachineValid(n, true, true, Some(n.third), 0.0,
      Runtime(true, 0.0, Never), Runtime(true, 0.0, At(1.0)), Unrun,
      [Call(n.first, 0.0, true), Call(n.second, 0.0, true)]);
    ExecuteDispatches(reg, body, TestMachine(n, true, true, Some(n.second), 0.0,
      Runtime(true, 0.0, Never), Runtime(true, 0.0, At(1.0)), Unrun,
      [Call(n.first, 0.0, true), Call(n.second, 0.0, true)]), 1.5, 1, sel);
    EnterOnTest(n, true, true, Some(n.third), 0.0,
      Runtime(true, 0.0, Never), Runtime(true, 0.0, At(1.0)), Unrun,
      [Call(n.first, 0.0, true), Call(n.second, 0.0, true)],
      n.third, 1.0, 1.5);
    assert CallOn(reg, sel.m, n.third, 1.0, 1.5) == Call(n.third, 0.5, true);
    assert body(n.third, 0.5, true) == Continue;
  }

  lemma TestStep7(n: Names)
    requires Distinct(n) && RegistryOk(TestRegistry(n))
    requires ValidMachine(TestRegistry(n), TestMachine(n, false, true, Some(n.third), 0.0,
      Runtime(true, 0.0, Never), Runtime(true, 0.0, At(1.0)), Runtime(true, 1.0, Never),
      [Call(n.first, 0.0, true), Call(n.second, 0.0, true), Call(n.third, 0.5, true)]))
    ensures Engage(TestRegistry(n), TestMachine(n, false, true, Some(n.third), 0.0,
      Runtime(true, 0.0, Never), Runtime(true, 0.0, At(1.0)), Runtime(true, 1.0, Never),
      [Call(n.first, 0.0, true), Call(n.second, 0.0, true), Call(n.third, 0.5, true)]), None, false)
      == Step(TestMachine(n, true, true, Some(n.third), 0.0,
      Runtime(true, 0.0, Never), Runtime(true, 0.0, At(1.0)), Runtime(true, 1.0, Never),
      [Call(n.first, 0.0, true), Call(n.second, 0.0, true), Call(n.third, 0.5, true)]), None)
  {
  }

  lemma TestSelects8(n: Names)
    requires Distinct(n) && RegistryOk(TestRegistry(n))
    requires ValidMachine(TestRegistry(n), TestMachine(n, true, true, Some(n.third), 0.0,
      Runtime(true, 0.0, Never), Runtime(true, 0.0, At(1.0)), Runtime(true, 1.0, Never),
      [Call(n.first, 0.0, true), Call(n.second, 0.0, true), Call(n.third, 0.5, true)]))
    ensures Select(TestRegistry(n), TestMachine(n, true, true, Some(n.third), 0.0,
      Runtime(true, 0.0, Never), Runtime(true, 0.0, At(1.0)), Runtime(true, 1.0, Never),
      [Call(n.first, 0.0, true), Call(n.second, 0.0, true), Call(n.third, 0.5, true)]), 1.5)
      == Success(Selection(TestMachine(n, true, true, Some(n.third), 0.0,
        Runtime(true, 0.0, Never), Runtime(true, 0.0, At(1.0)), Runtime(true, 1.0, Never),
        [Call(n.first, 0.0, true), Call(n.second, 0.0, true), Call(n.third, 0.5, true)]),
        Some(n.third), 1.5))
  {
  }

  lemma TestStep8(n: Names)
    requires Distinct(n) && RegistryOk(TestRegistry(n))
    requires ValidMachine(TestRegistry(n), TestMachine(n, true, true, Some(n.third), 0.0,
      Runtime(true, 0.0, Never), Runtime(true, 0.0, At(1.0)), Runtime(true, 1.0, Never),
      [Call(n.first, 0.0, true), Call(n.second, 0.0, true), Call(n.third, 0.5, true)]))
    ensures Execute(TestRegistry(n), TestBody(n), TestMachine(n, true, true, Some(n.third), 0.0,
      Runtime(true, 0.0, Never), Runtime(true, 0.0, At(1.0)), Runtime(true, 1.0, Never),
      [Call(n.first, 0.0, true), Call(n.second, 0.0, true), Call(n.third, 0.5, true)]), 1.5, 1)
      == Step(TestMachine(n, false, true, Some(n.third), 0.0,
      Runtime(true, 0.0, Never), Runtime(true, 0.0, At(1.0)), Runtime(true, 1.0, Never),
      [Call(n.first, 0.0, true), Call(n.second, 0.0, true), Call(n.third, 0.5, true), Call(n.third, 0.5, false)]), None)
  {
    var reg, body := TestRegistry(n), TestBody(n);
    var sel := Selection(TestMachine(n, true, true, Some(n.third), 0.0,
        Runtime(true, 0.0, Never), Runtime(true, 0.0, At(1.0)), Runtime(true, 1.0, Never),
        [Call(n.first, 0.0, true), Call(n.second, 0.0, true), Call(n.third, 0.5, true)]),
        Some(n.third), 1.5);
    TestSelects8(n);
    TestMachineValid(n, true, true, Some(n.third), 0.0,
      Runtime(true, 0.0, Never), Runtime(true, 0.0, At(1.0)), Runtime(true, 1.0, Never),
      [Call(n.first, 0.0, true), Call(n.second, 0.0, true), Call(n.third, 0.5, true)]);
    ExecuteDispatches(reg, body, TestMachine(n, true, true, Some(n.third), 0.0,
      Runtime(true, 0.0, Never), Runtime(true, 0.0, At(1.0)), Runtime(true, 1.0, Never),
      [Call(n.first, 0.0, true), Call(n.second, 0.0, true), Call(n.third, 0.5, true)]), 1.5, 1, sel);
    EnterOnTest(n, true, true, Some(n.third), 0.0,
      Runtime(true, 0.0, Never), Runtime(true, 0.0, At(1.0)), Runtime(true, 1.0, Never),
      [Call(n.first, 0.0, true), Call(n.second, 0.0, true), Call(n.third, 0.5, true)],
      n.third, 1.5, 1.5);
    assert CallOn(reg, sel.m, n.third, 1.5, 1.5) == Call(n.third, 0.5, false);
    assert body(n.third, 0.5, false) == Continue;
  }

  lemma TestStep9(n: Names)
    ensures Done(TestMachine(n, false, true, Some(n.third), 0.0,
      Runtime(true, 0.0, Never), Runtime(true, 0.0, At(1.0)), Runtime(true, 1.0, Never),
      [Call(n.first, 0.0, true), Call(n.second, 0.0, true), Call(n.third, 0.5, true), Call(n.third, 0.5, false)]))
      == TestMachine(n, false, false, None, 0.0,
      Runtime(true, 0.0, Never), Runtime(true, 0.0, At(1.0)), Runtime(true, 1.0, Never),
      [Call(n.first, 0.0, true), Call(n.second, 0.0, true), Call(n.third, 0.5, true), Call(n.third, 0.5, false)])
  {
  }

  lemma TestStep10(n: Names)
    requires Distinct(n) && RegistryOk(TestRegistry(n))
    requires ValidMachine(TestRegistry(n), TestMachine(n, false, false, None, 0.0,
      Runtime(true, 0.0, Never), Runtime(true, 0.0, At(1.0)), Runtime(true, 1.0, Never),
      [Call(n.first, 0.0, true), Call(n.second, 0.0, true), Call(n.third, 0.5, true), Call(n.third, 0.5, false)]))
    ensures Engage(TestRegistry(n), TestMachine(n, false, false, None, 0.0,
      Runtime(true, 0.0, Never), Runtime(true, 0.0, At(1.0)), Runtime(true, 1.0, Never),
      [Call(n.first, 0.0, true), Call(n.second, 0.0, true), Call(n.third, 0.5, true), Call(n.third, 0.5, false)]), Some(n.second), false)
      == Step(TestMachine(n, true, false, Some(n.second), 0.0,
      Runtime(true, 0.0, Never), Runtime(false, 0.0, At(1.0)), Runtime(true, 1.0, Never),
      [Call(n.first, 0.0, true), Call(n.second, 0.0, true), Call(n.third, 0.5, true), Call(n.third, 0.5, false)]), None)
  {
    TestMachineValid(n, true, false, None, 0.0,
      Runtime(true, 0.0, Never), Runtime(true, 0.0, At(1.0)), Runtime(true, 1.0, Never),
      [Call(n.first, 0.0, true), Call(n.second, 0.0, true), Call(n.third, 0.5, true), Call(n.third, 0.5, false)]);
    NextStateOnTest(n, true, false, None, 0.0,
      Runtime(true, 0.0, Never), Runtime(true, 0.0, At(1.0)), Runtime(true, 1.0, Never),
      [Call(n.first, 0.0, true), Call(n.second, 0.0, true), Call(n.third, 0.5, true), Call(n.third, 0.5, false)],
      n.second);
  }

  lemma TestSelects11(n: Names)
    requires Distinct(n) && RegistryOk(TestRegistry(n))
    requires ValidMachine(TestRegistry(n), TestMachine(n, true, false, Some(n.second), 0.0,
      Runtime(true, 0.0, Never), Runtime(false, 0.0, At(1.0)), Runtime(true, 1.0, Never),
      [Call(n.first, 0.0, true), Call(n.second, 0.0, true), Call(n.third, 0.5, true), Call(n.third, 0.5, false)]))
    ensures Select(TestRegistry(n), TestMachine(n, true, false, Some(n.second), 0.0,
      Runtime(true, 0.0, Never), Runtime(false, 0.0, At(1.0)), Runtime(true, 1.0, Never),
      [Call(n.first, 0.0, true), Call(n.second, 0.0, true), Call(n.third, 0.5, true), Call(n.third, 0.5, false)]), 1.5)
      == Success(Selection(TestMachine(n, true, true, Some(n.second), 1.5,
        Runtime(true, 0.0, Never), Runtime(false, 0.0, At(1.0)), Runtime(true, 1.0, Never),
        [Call(n.first, 0.0, true), Call(n.second, 0.0, true), Call(n.third, 0.5, true), Call(n.third, 0.5, false)]),
        Some(n.second), 0.0))
  {
  }

  lemma TestStep11(n: Names)
    requires Distinct(n) && RegistryOk(TestRegistry(n))
    requires ValidMachine(TestRegistry(n), TestMachine(n, true, false, Some(n.second), 0.0,
      Runtime(true, 0.0, Never), Runtime(false, 0.0, At(1.0)), Runtime(true, 1.0, Never),
      [Call(n.first, 0.0, true), Call(n.second, 0.0, true), Call(n.third, 0.5, true), Call(n.third, 0.5, false)]))
    ensures Execute(TestRegistry(n), TestBody(n), TestMachine(n, true, false, Some(n.second), 0.0,
      Runtime(true, 0.0, Never), Runtime(false, 0.0, At(1.0)), Runtime(true, 1.0, Never),
      [Call(n.first, 0.0, true), Call(n.second, 0.0, true), Call(n.third, 0.5, true), Call(n.third, 0.5, false)]), 1.5, 1)
      == Step(TestMachine(n, false, true, Some(n.second), 1.5,
      Runtime(true, 0.0, Never), Runtime(true, 0.0, At(1.0)), Runtime(true, 1.0, Never),
      [Call(n.first, 0.0, true), Call(n.second, 0.0, true), Call(n.third, 0.5, true), Call(n.third, 0.5, false), Call(n.second, 0.0, true)]), None)
  {
    var reg, body := TestRegistry(n), TestBody(n);
    var sel := Selection(TestMachine(n, true, true, Some(n.second), 1.5,
        Runtime(true, 0.0, Never), Runtime(false, 0.0, At(1.0)), Runtime(true, 1.0, Never),
        [Call(n.first, 0.0, true), Call(n.second, 0.0, true), Call(n.third, 0.5, true), Call(n.third, 0.5, false)]),
        Some(n.second), 0.0);
    TestSelects11(n);
    TestMachineValid(n, true, true, Some(n.second), 1.5,
      Runtime(true, 0.0, Never), Runtime(false, 0.0, At(1.0)), Runtime(true, 1.0, Never),
      [Call(n.first, 0.0, true), Call(n.second, 0.0, true), Call(n.third, 0.5, true), Call(n.third, 0.5, false)]);
    ExecuteDispatches(reg, body, TestMachine(n, true, false, Some(n.second), 0.0,
      Runtime(true, 0.0, Never), Runtime(false, 0.0, At(1.0)), Runtime(true, 1.0, Never),
      [Call(n.first, 0.0, true), Call(n.second, 0.0, true), Call(n.third, 0.5, true), Call(n.third, 0.5, false)]), 1.5, 1, sel);
    EnterOnTest(n, true, true, Some(n.second), 1.5,
      Runtime(true, 0.0, Never), Runtime(false, 0.0, At(1.0)), Runtime(true, 1.0, Never),
      [Call(n.first, 0.0, true), Call(n.second, 0.0, true), Call(n.third, 0.5, true), Call(n.third, 0.5, false)],
      n.second, 0.0, 0.0);
    assert CallOn(reg, sel.m, n.second, 0.0, 0.0) == Call(n.second, 0.0, true);
    assert body(n.second, 0.0, true) == Continue;
  }

  lemma TestStep12(n: Names)
    requires Distinct(n) && RegistryOk(TestRegistry(n))
    requires ValidMachine(TestRegistry(n), TestMachine(n, false, true, Some(n.second), 1.5,
      Runtime(true, 0.0, Never), Runtime(true, 0.0, At(1.0)), Runtime(true, 1.0, Never),
      [Call(n.first, 0.0, true), Call(n.second, 0.0, true), Call(n.third, 0.5, true), Call(n.third, 0.5, false), Call(n.second, 0.0, true)]))
    ensures Engage(TestRegistry(n), TestMachine(n, false, true, Some(n.second), 1.5,
      Runtime(true, 0.0, Never), Runtime(true, 0.0, At(1.0)), Runtime(true, 1.0, Never),
      [Call(n.first, 0.0, true), Call(n.second, 0.0, true), Call(n.third, 0.5, true), Call(n.third, 0.5, false), Call(n.second, 0.0, true)]), None, false)
      == Step(TestMachine(n, true, true, Some(n.second), 1.5,
      Runtime(true, 0.0, Never), Runtime(true, 0.0, At(1.0)), Runtime(true, 1.0, Never),
      [Call(n.first, 0.0, true), Call(n.second, 0.0, true), Call(n.third, 0.5, true), Call(n.third, 0.5, false), Call(n.second, 0.0, true)]), None)
  {
  }

  lemma TestSelects13(n: Names)
    requires Distinct(n) && RegistryOk(TestRegistry(n))
    requires ValidMachine(TestRegistry(n), TestMachine(n, true, true, Some(n.second), 1.5,
      Runtime(true, 0.0, Never), Runtime(true, 0.0, At(1.0)), Runtime(true, 1.0, Never),
      [Call(n.first, 0.0, true), Call(n.second, 0.0, true), Call(n.third, 0.5, true), Call(n.third, 0.5, false), Call(n.second, 0.0, true)]))
    ensures Select(TestRegistry(n), TestMachine(n, true, true, Some(n.second), 1.5,
      Runtime(true, 0.0, Never), Runtime(true, 0.0, At(1.0)), Runtime(true, 1.0, Never),
      [Call(n.first, 0.0, true), Call(n.second, 0.0, true), Call(n.third, 0.5, true), Call(n.third, 0.5, false), Call(n.second, 0.0, true)]), 3.0)
      == Success(Selection(TestMachine(n, true, true, Some(n.third), 1.5,
        Runtime(true, 0.0, Never), Runtime(true, 0.0, At(1.0)), Runtime(false, 1.0, Never),
        [Call(n.first, 0.0, true), Call(n.second, 0.0, true), Call(n.third, 0.5, true), Call(n.third, 0.5, false), Call(n.second, 0.0, true)]),
        Some(n.third), 1.0))
  {
    NextStateOnTest(n, true, true, Some(n.second), 1.5,
      Runtime(true, 0.0, Never), Runtime(true, 0.0, At(1.0)), Runtime(true, 1.0, Never),
      [Call(n.first, 0.0, true), Call(n.second, 0.0, true), Call(n.third, 0.5, true), Call(n.third, 0.5, false), Call(n.second, 0.0, true)],
      n.third);
  }

  lemma TestStep13(n: Names)
    requires Distinct(n) && RegistryOk(TestRegistry(n))
    requires ValidMachine(TestRegistry(n), TestMachine(n, true, true, Some(n.second), 1.5,
      Runtime(true, 0.0, Never), Runtime(true, 0.0, At(1.0)), Runtime(true, 1.0, Never),
      [Call(n.first, 0.0, true), Call(n.second, 0.0, true), Call(n.third, 0.5, true), Call(n.third, 0.5, false), Call(n.second, 0.0, true)]))
    ensures Execute(TestRegistry(n), TestBody(n), TestMachine(n, true, true, Some(n.second), 1.5,
      Runtime(true, 0.0, Never), Runtime(true, 0.0, At(1.0)), Runtime(true, 1.0, Never),
      [Call(n.first, 0.0, true), Call(n.second, 0.0, true), Call(n.third, 0.5, true), Call(n.third, 0.5, false), Call(n.second, 0.0, true)]), 3.0, 1)
      == Step(TestMachine(n, false, true, Some(n.third), 1.5,
      Runtime(true, 0.0, Never), Runtime(true, 0.0, At(1.0)), Runtime(true, 1.0, Never),
      [Call(n.first, 0.0, true), Call(n.second, 0.0, true), Call(n.third, 0.5, true), Call(n.third, 0.5, false), Call(n.second, 0.0, true), Call(n.third, 0.5, true)]), None)
  {
    var reg, body := TestRegistry(n), TestBody(n);
    var sel := Selection(TestMachine(n, true, true, Some(n.third), 1.5,
        Runtime(true, 0.0, Never), Runtime(true, 0.0, At(1.0)), Runtime(false, 1.0, Never),
        [Call(n.first, 0.0, true), Call(n.second, 0.0, true), Call(n.third, 0.5, true), Call(n.third, 0.5, false), Call(n.second, 0.0, true)]),
        Some(n.third), 1.0);
    TestSelects13(n);
    TestMachineValid(n, true, true, Some(n.third), 1.5,
      Runtime(true, 0.0, Never), Runtime(true, 0.0, At(1.0)), Runtime(false, 1.0, Never),
      [Call(n.first, 0.0, true), Call(n.second, 0.0, true), Call(n.third, 0.5, true), Call(n.third, 0.5, false), Call(n.second, 0.0, true)]);
    ExecuteDispatches(reg, body, TestMachine(n, true, true, Some(n.second), 1.5,
      Runtime(true, 0.0, Never), Runtime(true, 0.0, At(1.0)), Runtime(true, 1.0, Never),
      [Call(n.first, 0.0, true), Call(n.second, 0.0, true), Call(n.third, 0.5, true), Call(n.third, 0.5, false), Call(n.second, 0.0, true)]), 3.0, 1, sel);
    EnterOnTest(n, true, true, Some(n.third), 1.5,
      Runtime(true, 0.0, Never), Runtime(true, 0.0, At(1.0)), Runtime(false, 1.0, Never),
      [Call(n.first, 0.0, true), Call(n.second, 0.0, true), Call(n.third, 0.5, true), Call(n.third, 0.5, false), Call(n.second, 0.0, true)],
      n.third, 1.0, 1.5);
    assert CallOn(reg, sel.m, n.third, 1.0, 1.5) == Call(n.third, 0.5, true);
    assert body(n.third, 0.5, true) == Continue;
  }

  lemma TestStep14(n: Names)
    requires Distinct(n) && RegistryOk(TestRegistry(n))
    requires ValidMachine(TestRegistry(n), TestMachine(n, false, true, Some(n.third), 1.5,
      Runtime(true, 0.0, Never), Runtime(true, 0.0, At(1.0)), Runtime(true, 1.0, Never),
      [Call(n.first, 0.0, true), Call(n.second, 0.0, true), Call(n.third, 0.5, true), Call(n.third, 0.5, false), Call(n.second, 0.0, true), Call(n.third, 0.5, true)]))
    ensures Engage(TestRegistry(n), TestMachine(n, false, true, Some(n.third), 1.5,
      Runtime(true, 0.0, Never), Runtime(true, 0.0, At(1.0)), Runtime(true, 1.0, Never),
      [Call(n.first, 0.0, true), Call(n.second, 0.0, true), Call(n.third, 0.5, true), Call(n.third, 0.5, false), Call(n.second, 0.0, true), Call(n.third, 0.5, true)]), None, false)
      == Step(TestMachine(n, true, true, Some(n.third), 1.5,
      Runtime(true, 0.0, Never), Runtime(true, 0.0, At(1.0)), Runtime(true, 1.0, Never),
      [Call(n.first, 0.0, true), Call(n.second, 0.0, true), Call(n.third, 0.5, true), Call(n.third, 0.5, false), Call(n.second, 0.0, true), Call(n.third, 0.5, true)]), None)
  {
  }

  lemma TestSelects15(n: Names)
    requires Distinct(n) && RegistryOk(TestRegistry(n))
    requires ValidMachine(TestRegistry(n), TestMachine(n, true, true, Some(n.third), 1.5,
      Runtime(true, 0.0, Never), Runtime(true, 0.0, At(1.0)), Runtime(true, 1.0, Never),
      [Call(n.first, 0.0, true), Call(n.second, 0.0, true), Call(n.third, 0.5, true), Call(n.third, 0.5, false), Call(n.second, 0.0, true), Call(n.third, 0.5, true)]))
    ensures Select(TestRegistry(n), TestMachine(n, true, true, Some(n.third), 1.5,
      Runtime(true, 0.0, Never), Runtime(true, 0.0, At(1.0)), Runtime(true, 1.0, Never),
      [Call(n.first, 0.0, true), Call(n.second, 0.0, true), Call(n.third, 0.5, true), Call(n.third, 0.5, false), Call(n.second, 0.0, true), Call(n.third, 0.5, true)]), 3.0)
      == Success(Selection(TestMachine(n, true, true, Some(n.third), 1.5,
        Runtime(true, 0.0, Never), Runtime(true, 0.0, At(1.0)), Runtime(true, 1.0, Never),
        [Call(n.first, 0.0, true), Call(n.second, 0.0, true), Call(n.third, 0.5, true), Call(n.third, 0.5, false), Call(n.second, 0.0, true), Call(n.third, 0.5, true)]),
        Some(n.third), 1.5))
  {
  }

  lemma TestStep15(n: Names)
    requires Distinct(n) && RegistryOk(TestRegistry(n))
    requires ValidMachine(TestRegistry(n), TestMachine(n, true, true, Some(n.third), 1.5,
      Runtime(true, 0.0, Never), Runtime(true, 0.0, At(1.0)), Runtime(true, 1.0, Never),
      [Call(n.first, 0.0, true), Call(n.second, 0.0, true), Call(n.third, 0.5, true), Call(n.third, 0.5, false), Call(n.second, 0.0, true), Call(n.third, 0.5, true)]))
    ensures Execute(TestRegistry(n), TestBody(n), TestMachine(n, true, true, Some(n.third), 1.5,
      Runtime(true, 0.0, Never), Runtime(true, 0.0, At(1.0)), Runtime(true, 1.0, Never),
      [Call(n.first, 0.0, true), Call(n.second, 0.0, true), Call(n.third, 0.5, true), Call(n.third, 0.5, false), Call(n.second, 0.0, true), Call(n.third, 0.5, true)]), 3.0, 1)
      == Step(TestMachine(n, false, true, Some(n.third), 1.5,
      Runtime(true, 0.0, Never), Runtime(true, 0.0, At(1.0)), Runtime(true, 1.0, Never),
      [Call(n.first, 0.0, true), Call(n.second, 0.0, true), Call(n.third, 0.5, true), Call(n.third, 0.5, false), Call(n.second, 0.0, true), Call(n.third, 0.5, true), Call(n.third, 0.5, false)]), None)
  {
    var reg, body := TestRegistry(n), TestBody(n);
    var sel := Selection(TestMachine(n, true, true, Some(n.third), 1.5,
        Runtime(true, 0.0, Never), Runtime(true, 0.0, At(1.0)), Runtime(true, 1.0, Never),
        [Call(n.first, 0.0, true), Call(n.second, 0.0, true), Call(n.third, 0.5, true), Call(n.third, 0.5, false), Call(n.second, 0.0, true), Call(n.third, 0.5, true)]),
        Some(n.third), 1.5);
    TestSelects15(n);
    TestMachineValid(n, true, true, Some(n.third), 1.5,
      Runtime(true, 0.0, Never), Runtime(true, 0.0, At(1.0)), Runtime(true, 1.0, Never),
      [Call(n.first, 0.0, true), Call(n.second, 0.0, true), Call(n.third, 0.5, true), Call(n.third, 0.5, false), Call(n.second, 0.0, true), Call(n.third, 0.5, true)]);
    ExecuteDispatches(reg, body, TestMachine(n, true, true, Some(n.third), 1.5,
      Runtime(true, 0.0, Never), Runtime(true, 0.0, At(1.0)), Runtime(true, 1.0, Never),
      [Call(n.first, 0.0, true), Call(n.second, 0.0, true), Call(n.third, 0.5, true), Call(n.third, 0.5, false), Call(n.second, 0.0, true), Call(n.third, 0.5, true)]), 3.0, 1, sel);
    EnterOnTest(n, true, true, Some(n.third), 1.5,
      Runtime(true, 0.0, Never), Runtime(true, 0.0, At(1.0)), Runtime(true, 1.0, Never),
      [Call(n.first, 0.0, true), Call(n.second, 0.0, true), Call(n.third, 0.5, true), Call(n.third, 0.5, false), Call(n.second, 0.0, true), Call(n.third, 0.5, true)],
      n.third, 1.5, 1.5);
    assert CallOn(reg, sel.m, n.third, 1.5, 1.5) == Call(n.third, 0.5, false);
    assert body(n.third, 0.5, false) == Continue;
  }

  lemma TestStep16(n: Names)
    requires Distinct(n) && RegistryOk(TestRegistry(n))
    requires ValidMachine(TestRegistry(n), TestMachine(n, false, true, Some(n.third), 1.5,
      Runtime(true, 0.0, Never), Runtime(true, 0.0, At(1.0)), Runtime(true, 1.0, Never),
      [Call(n.first, 0.0, true), Call(n.second, 0.0, true), Call(n.third, 0.5, true), Call(n.third, 0.5, false), Call(n.second, 0.0, true), Call(n.third, 0.5, true), Call(n.third, 0.5, false)]))
    ensures Engage(TestRegistry(n), TestMachine(n, false, true, Some(n.third), 1.5,
      Runtime(true, 0.0, Never), Runtime(true, 0.0, At(1.0)), Runtime(true, 1.0, Never),
      [Call(n.first, 0.0, true), Call(n.second, 0.0, true), Call(n.third, 0.5, true), Call(n.third, 0.5, false), Call(n.second, 0.0, true), Call(n.third, 0.5, true), Call(n.third, 0.5, false)]), None, true)
      == Step(TestMachine(n, true, true, Some(n.first), 1.5,
      Runtime(false, 0.0, Never), Runtime(true, 0.0, At(1.0)), Runtime(true, 1.0, Never),
      [Call(n.first, 0.0, true), Call(n.second, 0.0, true), Call(n.third, 0.5, true), Call(n.third, 0.5, false), Call(n.second, 0.0, true), Call(n.third, 0.5, true), Call(n.third, 0.5, false)]), None)
  {
    TestMachineValid(n, true, true, Some(n.third), 1.5,
      Runtime(true, 0.0, Never), Runtime(true, 0.0, At(1.0)), Runtime(true, 1.0, Never),
      [Call(n.first, 0.0, true), Call(n.second, 0.0, true), Call(n.third, 0.5, true), Call(n.third, 0.5, false), Call(n.second, 0.0, true), Call(n.third, 0.5, true), Call(n.third, 0.5, false)]);
    NextStateOnTest(n, true, true, Some(n.third), 1.5,
      Runtime(true, 0.0, Never), Runtime(true, 0.0, At(1.0)), Runtime(true, 1.0, Never),
      [Call(n.first, 0.0, true), Call(n.second, 0.0, true), Call(n.third, 0.5, true), Call(n.third, 0.5, false), Call(n.second, 0.0, true), Call(n.third, 0.5, true), Call(n.third, 0.5, false)],
      n.first);
  }

  lemma TestSelects17(n: Names)
    requires Distinct(n) && RegistryOk(TestRegistry(n))
    requires ValidMachine(TestRegistry(n), TestMachine(n, true, true, Some(n.first), 1.5,
      Runtime(false, 0.0, Never), Runtime(true, 0.0, At(1.0)), Runtime(true, 1.0, Never),
      [Call(n.first, 0.0, true), Call(n.second, 0.0, true), Call(n.third, 0.5, true), Call(n.third, 0.5, false), Call(n.second, 0.0, true), Call(n.third, 0.5, true), Call(n.third, 0.5, false)]))
    ensures Select(TestRegistry(n), TestMachine(n, true, true, Some(n.first), 1.5,
      Runtime(false, 0.0, Never), Runtime(true, 0.0, At(1.0)), Runtime(true, 1.0, Never),
      [Call(n.first, 0.0, true), Call(n.second, 0.0, true), Call(n.third, 0.5, true), Call(n.third, 0.5, false), Call(n.second, 0.0, true), Call(n.third, 0.5, true), Call(n.third, 0.5, false)]), 3.0)
      == Success(Selection(TestMachine(n, true, true, Some(n.first), 1.5,
        Runtime(false, 0.0, Never), Runtime(true, 0.0, At(1.0)), Runtime(true, 1.0, Never),
        [Call(n.first, 0.0, true), Call(n.second, 0.0, true), Call(n.third, 0.5, true), Call(n.third, 0.5, false), Call(n.second, 0.0, true), Call(n.third, 0.5, true), Call(n.third, 0.5, false)]),
        Some(n.first), 1.5))
  {
  }

  lemma TestStep17(n: Names)
    requires Distinct(n) && RegistryOk(TestRegistry(n))
    requires ValidMachine(TestRegistry(n), TestMachine(n, true, true, Some(n.first), 1.5,
      Runtime(false, 0.0, Never), Runtime(true, 0.0, At(1.0)), Runtime(true, 1.0, Never),
      [Call(n.first, 0.0, true), Call(n.second, 0.0, true), Call(n.third, 0.5, true), Call(n.third, 0.5, false), Call(n.second, 0.0, true), Call(n.third, 0.5, true), Call(n.third, 0.5, false)]))
    ensures Execute(TestRegistry(n), TestBody(n), TestMachine(n, true, true, Some(n.first), 1.5,
      Runtime(false, 0.0, Never), Runtime(true, 0.0, At(1.0)), Runtime(true, 1.0, Never),
      [Call(n.first, 0.0, true), Call(n.second, 0.0, true), Call(n.third, 0.5, true), Call(n.third, 0.5, false), Call(n.second, 0.0, true), Call(n.third, 0.5, true), Call(n.third, 0.5, false)]), 3.0, 1)
      == Step(TestMachine(n, false, true, Some(n.second), 1.5,
      Runtime(true, 1.5, Never), Runtime(false, 0.0, At(1.0)), Runtime(true, 1.0, Never),
      [Call(n.first, 0.0, true), Call(n.second, 0.0, true), Call(n.third, 0.5, true), Call(n.third, 0.5, false), Call(n.second, 0.0, true), Call(n.third, 0.5, true), Call(n.third, 0.5, false), Call(n.first, 0.0, true)]), None)
  {
    var reg, body := TestRegistry(n), TestBody(n);
    var sel := Selection(TestMachine(n, true, true, Some(n.first), 1.5,
        Runtime(false, 0.0, Never), Runtime(true, 0.0, At(1.0)), Runtime(true, 1.0, Never),
        [Call(n.first, 0.0, true), Call(n.second, 0.0, true), Call(n.third, 0.5, true), Call(n.third, 0.5, false), Call(n.second, 0.0, true), Call(n.third, 0.5, true), Call(n.third, 0.5, false)]),
        Some(n.first), 1.5);
    TestSelects17(n);
    TestMachineValid(n, true, true, Some(n.first), 1.5,
      Runtime(false, 0.0, Never), Runtime(true, 0.0, At(1.0)), Runtime(true, 1.0, Never),
      [Call(n.first, 0.0, true), Call(n.second, 0.0, true), Call(n.third, 0.5, true), Call(n.third, 0.5, false), Call(n.second, 0.0, true), Call(n.third, 0.5, true), Call(n.third, 0.5, false)]);
    ExecuteDispatches(reg, body, TestMachine(n, true, true, Some(n.first), 1.5,
      Runtime(false, 0.0, Never), Runtime(true, 0.0, At(1.0)), Runtime(true, 1.0, Never),
      [Call(n.first, 0.0, true), Call(n.second, 0.0, true), Call(n.third, 0.5, true), Call(n.third, 0.5, false), Call(n.second, 0.0, true), Call(n.third, 0.5, true), Call(n.third, 0.5, false)]), 3.0, 1, sel);
    EnterOnTest(n, true, true, Some(n.first), 1.5,
      Runtime(false, 0.0, Never), Runtime(true, 0.0, At(1.0)), Runtime(true, 1.0, Never),
      [Call(n.first, 0.0, true), Call(n.second, 0.0, true), Call(n.third, 0.5, true), Call(n.third, 0.5, false), Call(n.second, 0.0, true), Call(n.third, 0.5, true), Call(n.third, 0.5, false)],
      n.first, 1.5, 1.5);
    assert CallOn(reg, sel.m, n.first, 1.5, 1.5) == Call(n.first, 0.0, true);
    assert body(n.first, 0.0, true) == GoTo(n.second);
    TestMachineValid(n, true, true, Some(n.first), 1.5,
      Runtime(true, 1.5, Never), Runtime(true, 0.0, At(1.0)), Runtime(true, 1.0, Never),
      [Call(n.first, 0.0, true), Call(n.second, 0.0, true), Call(n.third, 0.5, true), Call(n.third, 0.5, false), Call(n.second, 0.0, true), Call(n.third, 0.5, true), Call(n.third, 0.5, false), Call(n.first, 0.0, true)]);
    NextStateOnTest(n, true, true, Some(n.first), 1.5,
      Runtime(true, 1.5, Never), Runtime(true, 0.0, At(1.0)), Runtime(true, 1.0, Never),
      [Call(n.first, 0.0, true), Call(n.second, 0.0, true), Call(n.third, 0.5, true), Call(n.third, 0.5, false), Call(n.second, 0.0, true), Call(n.third, 0.5, true), Call(n.third, 0.5, false), Call(n.first, 0.0, true)],
      n.second);
  }

  lemma TestSelects18(n: Names)
    requires Distinct(n) && RegistryOk(TestRegistry(n))
    requires ValidMachine(TestRegistry(n), TestMachine(n, false, true, Some(n.second), 1.5,
      Runtime(true, 1.5, Never), Runtime(false, 0.0, At(1.0)), Runtime(true, 1.0, Never),
      [Call(n.first, 0.0, true), Call(n.second, 0.0, true), Call(n.third, 0.5, true), Call(n.third, 0.5, false), Call(n.second, 0.0, true), Call(n.third, 0.5, true), Call(n.third, 0.5, false), Call(n.first, 0.0, true)]))
    ensures Select(TestRegistry(n), TestMachine(n, false, true, Some(n.second), 1.5,
      Runtime(true, 1.5, Never), Runtime(false, 0.0, At(1.0)), Runtime(true, 1.0, Never),
      [Call(n.first, 0.0, true), Call(n.second, 0.0, true), Call(n.third, 0.5, true), Call(n.third, 0.5, false), Call(n.second, 0.0, true), Call(n.third, 0.5, true), Call(n.third, 0.5, false), Call(n.first, 0.0, true)]), 3.0)
      == Success(Selection(TestMachine(n, false, true, Some(n.second), 1.5,
        Runtime(true, 1.5, Never), Runtime(false, 0.0, At(1.0)), Runtime(true, 1.0, Never),
        [Call(n.first, 0.0, true), Call(n.second, 0.0, true), Call(n.third, 0.5, true), Call(n.third, 0.5, false), Call(n.second, 0.0, true), Call(n.third, 0.5, true), Call(n.third, 0.5, false), Call(n.first, 0.0, true)]),
        None, 1.5))
  {
  }

  lemma TestStep18(n: Names)
    requires Distinct(n) && RegistryOk(TestRegistry(n))
    requires ValidMachine(TestRegistry(n), TestMachine(n, false, true, Some(n.second), 1.5,
      Runtime(true, 1.5, Never), Runtime(false, 0.0, At(1.0)), Runtime(true, 1.0, Never),
      [Call(n.first, 0.0, true), Call(n.second, 0.0, true), Call(n.third, 0.5, true), Call(n.third, 0.5, false), Call(n.second, 0.0, true), Call(n.third, 0.5, true), Call(n.third, 0.5, false), Call(n.first, 0.0, true)]))
    ensures Execute(TestRegistry(n), TestBody(n), TestMachine(n, false, true, Some(n.second), 1.5,
      Runtime(true, 1.5, Never), Runtime(false, 0.0, At(1.0)), Runtime(true, 1.0, Never),
      [Call(n.first, 0.0, true), Call(n.second, 0.0, true), Call(n.third, 0.5, true), Call(n.third, 0.5, false), Call(n.second, 0.0, true), Call(n.third, 0.5, true), Call(n.third, 0.5, false), Call(n.first, 0.0, true)]), 3.0, 1)
      == Step(TestMachine(n, false, false, None, 1.5,
      Runtime(true, 1.5, Never), Runtime(false, 0.0, At(1.0)), Runtime(true, 1.0, Never),
      [Call(n.first, 0.0, true), Call(n.second, 0.0, true), Call(n.third, 0.5, true), Call(n.third, 0.5, false), Call(n.second, 0.0, true), Call(n.third, 0.5, true), Call(n.third, 0.5, false), Call(n.first, 0.0, true)]), None)
  {
    TestSelects18(n);
  }


  /**
   * What the test sees after each call: the state names and executing flags it
   * asserts, including those after the calls it does not check.
   */
  function ExpectedSeen(n: Names): seq<Seen> {
    [Seen(n.first, false),
     Seen(n.second, true),
     Seen(n.second, true),
     Seen(n.second, true),
     Seen(n.second, true),
     Seen(n.third, true),
     Seen(n.third, true),
     Seen(n.third, true),
     Seen("", false),
     Seen(n.second, false),
     Seen(n.second, true),
     Seen(n.second, true),
     Seen(n.third, true),
     Seen(n.third, true),
     Seen(n.third, true),
     Seen(n.first, true),
     Seen(n.second, true),
     Seen("", false)]
  }

  /** Call op takes m to m' without a throw, and what is seen afterwards is seen. */
  predicate StepsTo(reg: Registry, body: Body, m: Machine, op: Op, m': Machine, seen: Seen)
  {
    && RegistryOk(reg) && ValidMachine(reg, m) && ValidMachine(reg, m')
    && Perform(reg, body, m, op, 1) == Step(m', None)
    && seen == Seen(CurrentState(m'), IsExecuting(m'))
  }

  /** A non-empty suffix is its first element followed by the next suffix. */
  lemma SuffixSplits<T>(s: seq<T>, k: nat)
    requires k < |s|
    ensures s[k..] == [s[k]] + s[k + 1..] && s[k..][0] == s[k] && s[k..][1..] == s[k + 1..]
  {
  }

  /** One call that does not throw, followed by the rest of the calls. */
  lemma ReplayStep(reg: Registry, body: Body, m: Machine, m': Machine, seen: Seen, ops: seq<Op>)
    requires ops != [] && StepsTo(reg, body, m, ops[0], m', seen)
    ensures var rest := Replay(reg, body, m', ops[1..], 1);
      Replay(reg, body, m, ops, 1) == (rest.0, [seen] + rest.1)
  {
  }

  /**
   * If call k takes m to m', showing seen[k], and the calls after it take m'
   * to mf showing the rest of seen, then the calls from k on take m to mf.
   */
  lemma ReplayCons(reg: Registry, body: Body, m: Machine, m': Machine, mf: Machine, ops: seq<Op>, seen: seq<Seen>, k: nat)
    requires k < |ops| && k < |seen| && StepsTo(reg, body, m, ops[k], m', seen[k])
    requires Replay(reg, body, m', ops[k + 1..], 1) == (Step(mf, None), seen[k + 1..])
    ensures Replay(reg, body, m, ops[k..], 1) == (Step(mf, None), seen[k..])
  {
    SuffixSplits(ops, k);
    SuffixSplits(seen, k);
    ReplayStep(reg, body, m, m', seen[k], ops[k..]);
  }

  /** Call 0 of the test. */
  lemma TestCall0(n: Names)
    requires Distinct(n)
    ensures StepsTo(TestRegistry(n), TestBody(n),
      TestMachine(n, false, false, None, 0.0,
      Unrun, Unrun, Unrun,
      []),
      EngageOp(None, false),
      TestMachine(n, true, false, Some(n.first), 0.0,
      Unrun, Unrun, Unrun,
      []),
      Seen(n.first, false))
  {
    var reg, body := TestRegistry(n), TestBody(n);
    var m := TestMachine(n, false, false, None, 0.0,
      Unrun, Unrun, Unrun,
      []);
    TestRegistryOk(n);
    TestMachineValid(n, false, false, None, 0.0,
      Unrun, Unrun, Unrun,
      []);
    TestMachineValid(n, true, false, Some(n.first), 0.0,
      Unrun, Unrun, Unrun,
      []);
    TestStep1(n);
    assert Perform(reg, body, m, EngageOp(None, false), 1) == Engage(reg, m, None, false);
  }

  /** Call 1 of the test. */
  lemma TestCall1(n: Names)
    requires Distinct(n)
    ensures StepsTo(TestRegistry(n), TestBody(n),
      TestMachine(n, true, false, Some(n.first), 0.0,
      Unrun, Unrun, Unrun,
      []),
      ExecuteOp(0.0),
      TestMachine(n, false, true, Some(n.second), 0.0,
      Runtime(true, 0.0, Never), Unrun, Unrun,
      [Call(n.first, 0.0, true)]),
      Seen(n.second, true))
  {
    var reg, body := TestRegistry(n), TestBody(n);
    var m := TestMachine(n, true, false, Some(n.first), 0.0,
      Unrun, Unrun, Unrun,
      []);
    TestRegistryOk(n);
    TestMachineValid(n, true, false, Some(n.first), 0.0,
      Unrun, Unrun, Unrun,
      []);
    TestMachineValid(n, false, true, Some(n.second), 0.0,
      Runtime(true, 0.0, Never), Unrun, Unrun,
      [Call(n.first, 0.0, true)]);
    TestStep2(n);
    assert Perform(reg, body, m, ExecuteOp(0.0), 1) == Execute(reg, body, m, 0.0, 1);
  }

  /** Call 2 of the test. */
  lemma TestCall2(n: Names)
    requires Distinct(n)
    ensures StepsTo(TestRegistry(n), TestBody(n),
      TestMachine(n, false, true, Some(n.second), 0.0,
      Runtime(true, 0.0, Never), Unrun, Unrun,
      [Call(n.first, 0.0, true)]),
      EngageOp(None, false),
      TestMachine(n, true, true, Some(n.second), 0.0,
      Runtime(true, 0.0, Never), Unrun, Unrun,
      [Call(n.first, 0.0, true)]),
      Seen(n.second, true))
  {
    var reg, body := TestRegistry(n), TestBody(n);
    var m := TestMachine(n, false, true, Some(n.second), 0.0,
      Runtime(true, 0.0, Never), Unrun, Unrun,
      [Call(n.first, 0.0, true)]);
    TestRegistryOk(n);
    TestMachineValid(n, false, true, Some(n.second), 0.0,
      Runtime(true, 0.0, Never), Unrun, Unrun,
      [Call(n.first, 0.0, true)]);
    TestMachineValid(n, true, true, Some(n.second), 0.0,
      Runtime(true, 0.0, Never), Unrun, Unrun,
      [Call(n.first, 0.0, true)]);
    TestStep3(n);
    assert Perform(reg, body, m, EngageOp(None, false), 1) == Engage(reg, m, None, false);
  }

  /** Call 3 of the test. */
  lemma TestCall3(n: Names)
    requires Distinct(n)
    ensures StepsTo(TestRegistry(n), TestBody(n),
      TestMachine(n, true, true, Some(n.second), 0.0,
      Runtime(true, 0.0, Never), Unrun, Unrun,
      [Call(n.first, 0.0, true)]),
      ExecuteOp(0.0),
      TestMachine(n, false, true, Some(n.second), 0.0,
      Runtime(true, 0.0, Never), Runtime(true, 0.0, At(1.0)), Unrun,
      [Call(n.first, 0.0, true), Call(n.second, 0.0, true)]),
      Seen(n.second, true))
  {
    var reg, body := TestRegistry(n), TestBody(n);
    var m := TestMachine(n, true, true, Some(n.second), 0.0,
      Runtime(true, 0.0, Never), Unrun, Unrun,
      [Call(n.first, 0.0, true)]);
    TestRegistryOk(n);
    TestMachineValid(n, true, true, Some(n.second), 0.0,
      Runtime(true, 0.0, Never), Unrun, Unrun,
      [Call(n.first, 0.0, true)]);
    TestMachineValid(n, false, true, Some(n.second), 0.0,
      Runtime(true, 0.0, Never), Runtime(true, 0.0, At(1.0)), Unrun,
      [Call(n.first, 0.0, true), Call(n.second, 0.0, true)]);
    TestStep4(n);
    assert Perform(reg, body, m, ExecuteOp(0.0), 1) == Execute(reg, body, m, 0.0, 1);
  }

  /** Call 4 of the test. */
  lemma TestCall4(n: Names)
    requires Distinct(n)
    ensures StepsTo(TestRegistry(n), TestBody(n),
      TestMachine(n, false, true, Some(n.second), 0.0,
      Runtime(true, 0.0, Never), Runtime(true, 0.0, At(1.0)), Unrun,
      [Call(n.first, 0.0, true), Call(n.second, 0.0, true)]),
      EngageOp(None, false),
      TestMachine(n, true, true, Some(n.second), 0.0,
      Runtime(true, 0.0, Never), Runtime(true, 0.0, At(1.0)), Unrun,
      [Call(n.first, 0.0, true), Call(n.second, 0.0, true)]),
      Seen(n.second, true))
  {
    var reg, body := TestRegistry(n), TestBody(n);
    var m := TestMachine(n, false, true, Some(n.second), 0.0,
      Runtime(true, 0.0, Never), Runtime(true, 0.0, At(1.0)), Unrun,
      [Call(n.first, 0.0, true), Call(n.second, 0.0, true)]);
    TestRegistryOk(n);
    TestMachineValid(n, false, true, Some(n.second), 0.0,
      Runtime(true, 0.0, Never), Runtime(true, 0.0, At(1.0)), Unrun,
      [Call(n.first, 0.0, true), Call(n.second, 0.0, true)]);
    TestMachineValid(n, true, true, Some(n.second), 0.0,
      Runtime(true, 0.0, Never), Runtime(true, 0.0, At(1.0)), Unrun,
      [Call(n.first, 0.0, true), Call(n.second, 0.0, true)]);
    TestStep5(n);
    assert Perform(reg, body, m, EngageOp(None, false), 1) == Engage(reg, m, None, false);
  }

  /** Call 5 of the test. */
  lemma TestCall5(n: Names)
    requires Distinct(n)
    ensures StepsTo(TestRegistry(n), TestBody(n),
      TestMachine(n, true, true, Some(n.second), 0.0,
      Runtime(true, 0.0, Never), Runtime(true, 0.0, At(1.0)), Unrun,
      [Call(n.first, 0.0, true), Call(n.second, 0.0, true)]),
      ExecuteOp(1.5),
      TestMachine(n, false, true, Some(n.third), 0.0,
      Runtime(true, 0.0, Never), Runtime(true, 0.0, At(1.0)), Runtime(true, 1.0, Never),
      [Call(n.first, 0.0, true), Call(n.second, 0.0, true), Call(n.third, 0.5, true)]),
      Seen(n.third, true))
  {
    var reg, body := TestRegistry(n), TestBody(n);
    var m := TestMachine(n, true, true, Some(n.second), 0.0,
      Runtime(true, 0.0, Never), Runtime(true, 0.0, At(1.0)), Unrun,
      [Call(n.first, 0.0, true), Call(n.second, 0.0, true)]);
    TestRegistryOk(n);
    TestMachineValid(n, true, true, Some(n.second), 0.0,
      Runtime(true, 0.0, Never), Runtime(true, 0.0, At(1.0)), Unrun,
      [Call(n.first, 0.0, true), Call(n.second, 0.0, true)]);
    TestMachineValid(n, false, true, Some(n.third), 0.0,
      Runtime(true, 0.0, Never), Runtime(true, 0.0, At(1.0)), Runtime(true, 1.0, Never),
      [Call(n.first, 0.0, true), Call(n.second, 0.0, true), Call(n.third, 0.5, true)]);
    TestStep6(n);
    assert Perform(reg, body, m, ExecuteOp(1.5), 1) == Execute(reg, body, m, 1.5, 1);
  }

  /** Call 6 of the test. */
  lemma TestCall6(n: Names)
    requires Distinct(n)
    ensures StepsTo(TestRegistry(n), TestBody(n),
      TestMachine(n, false, true, Some(n.third), 0.0,
      Runtime(true, 0.0, Never), Runtime(true, 0.0, At(1.0)), Runtime(true, 1.0, Never),
      [Call(n.first, 0.0, true), Call(n.second, 0.0, true), Call(n.third, 0.5, true)]),
      EngageOp(None, false),
      TestMachine(n, true, true, Some(n.third), 0.0,
      Runtime(true, 0.0, Never), Runtime(true, 0.0, At(1.0)), Runtime(true, 1.0, Never),
      [Call(n.first, 0.0, true), Call(n.second, 0.0, true), Call(n.third, 0.5, true)]),
      Seen(n.third, true))
  {
    var reg, body := TestRegistry(n), TestBody(n);
    var m := TestMachine(n, false, true, Some(n.third), 0.0,
      Runtime(true, 0.0, Never), Runtime(true, 0.0, At(1.0)), Runtime(true, 1.0, Never),
      [Call(n.first, 0.0, true), Call(n.second, 0.0, true), Call(n.third, 0.5, true)]);
    TestRegistryOk(n);
    TestMachineValid(n, false, true, Some(n.third), 0.0,
      Runtime(true, 0.0, Never), Runtime(true, 0.0, At(1.0)), Runtime(true, 1.0, Never),
      [Call(n.first, 0.0, true), Call(n.second, 0.0, true), Call(n.third, 0.5, true)]);
    TestMachineValid(n, true, true, Some(n.third), 0.0,
      Runtime(true, 0.0, Never), Runtime(true, 0.0, At(1.0)), Runtime(true, 1.0, Never),
      [Call(n.first, 0.0, true), Call(n.second, 0.0, true), Call(n.third, 0.5, true)]);
    TestStep7(n);
    assert Perform(reg, body, m, EngageOp(None, false), 1) == Engage(reg, m, None, false);
  }

  /** Call 7 of the test. */
  lemma TestCall7(n: Names)
    requires Distinct(n)
    ensures StepsTo(TestRegistry(n), TestBody(n),
      TestMachine(n, true, true, Some(n.third), 0.0,
      Runtime(true, 0.0, Never), Runtime(true, 0.0, At(1.0)), Runtime(true, 1.0, Never),
      [Call(n.first, 0.0, true), Call(n.second, 0.0, true), Call(n.third, 0.5, true)]),
      ExecuteOp(1.5),
      TestMachine(n, false, true, Some(n.third), 0.0,
      Runtime(true, 0.0, Never), Runtime(true, 0.0, At(1.0)), Runtime(true, 1.0, Never),
      [Call(n.first, 0.0, true), Call(n.second, 0.0, true), Call(n.third, 0.5, true), Call(n.third, 0.5, false)]),
      Seen(n.third, true))
  {
    var reg, body := TestRegistry(n), TestBody(n);
    var m := TestMachine(n, true, true, Some(n.third), 0.0,
      Runtime(true, 0.0, Never), Runtime(true, 0.0, At(1.0)), Runtime(true, 1.0, Never),
      [Call(n.first, 0.0, true), Call(n.second, 0.0, true), Call(n.third, 0.5, true)]);
    TestRegistryOk(n);
    TestMachineValid(n, true, true, Some(n.third), 0.0,
      Runtime(true, 0.0, Never), Runtime(true, 0.0, At(1.0)), Runtime(true, 1.0, Never),
      [Call(n.first, 0.0, true), Call(n.second, 0.0, true), Call(n.third, 0.5, true)]);
    TestMachineValid(n, false, true, Some(n.third), 0.0,
      Runtime(true, 0.0, Never), Runtime(true, 0.0, At(1.0)), Runtime(true, 1.0, Never),
      [Call(n.first, 0.0, true), Call(n.second, 0.0, true), Call(n.third, 0.5, true), Call(n.third, 0.5, false)]);
    TestStep8(n);
    assert Perform(reg, body, m, ExecuteOp(1.5), 1) == Execute(reg, body, m, 1.5, 1);
  }

  /** Call 8 of the test. */
  lemma TestCall8(n: Names)
    requires Distinct(n)
    ensures StepsTo(TestRegistry(n), TestBody(n),
      TestMachine(n, false, true, Some(n.third), 0.0,
      Runtime(true, 0.0, Never), Runtime(true, 0.0, At(1.0)), Runtime(true, 1.0, Never),
      [Call(n.first, 0.0, true), Call(n.second, 0.0, true), Call(n.third, 0.5, true), Call(n.third, 0.5, false)]),
      DoneOp,
      TestMachine(n, false, false, None, 0.0,
      Runtime(true, 0.0, Never), Runtime(true, 0.0, At(1.0)), Runtime(true, 1.0, Never),
      [Call(n.first, 0.0, true), Call(n.second, 0.0, true), Call(n.third, 0.5, true), Call(n.third, 0.5, false)]),
      Seen("", false))
  {
    var reg, body := TestRegistry(n), TestBody(n);
    var m := TestMachine(n, false, true, Some(n.third), 0.0,
      Runtime(true, 0.0, Never), Runtime(true, 0.0, At(1.0)), Runtime(true, 1.0, Never),
      [Call(n.first, 0.0, true), Call(n.second, 0.0, true), Call(n.third, 0.5, true), Call(n.third, 0.5, false)]);
    TestRegistryOk(n);
    TestMachineValid(n, false, true, Some(n.third), 0.0,
      Runtime(true, 0.0, Never), Runtime(true, 0.0, At(1.0)), Runtime(true, 1.0, Never),
      [Call(n.first, 0.0, true), Call(n.second, 0.0, true), Call(n.third, 0.5, true), Call(n.third, 0.5, false)]);
    TestMachineValid(n, false, false, None, 0.0,
      Runtime(true, 0.0, Never), Runtime(true, 0.0, At(1.0)), Runtime(true, 1.0, Never),
      [Call(n.first, 0.0, true), Call(n.second, 0.0, true), Call(n.third, 0.5, true), Call(n.third, 0.5, false)]);
    TestStep9(n);
    assert Perform(reg, body, m, DoneOp, 1) == Step(Done(m), None);
  }

  /** Call 9 of the test. */
  lemma TestCall9(n: Names)
    requires Distinct(n)
    ensures StepsTo(TestRegistry(n), TestBody(n),
      TestMachine(n, false, false, None, 0.0,
      Runtime(true, 0.0, Never), Runtime(true, 0.0, At(1.0)), Runtime(true, 1.0, Never),
      [Call(n.first, 0.0, true), Call(n.second, 0.0, true), Call(n.third, 0.5, true), Call(n.third, 0.5, false)]),
      EngageOp(Some(n.second), false),
      TestMachine(n, true, false, Some(n.second), 0.0,
      Runtime(true, 0.0, Never), Runtime(false, 0.0, At(1.0)), Runtime(true, 1.0, Never),
      [Call(n.first, 0.0, true), Call(n.second, 0.0, true), Call(n.third, 0.5, true), Call(n.third, 0.5, false)]),
      Seen(n.second, false))
  {
    var reg, body := TestRegistry(n), TestBody(n);
    var m := TestMachine(n, false, false, None, 0.0,
      Runtime(true, 0.0, Never), Runtime(true, 0.0, At(1.0)), Runtime(true, 1.0, Never),
      [Call(n.first, 0.0, true), Call(n.second, 0.0, true), Call(n.third, 0.5, true), Call(n.third, 0.5, false)]);
    TestRegistryOk(n);
    TestMachineValid(n, false, false, None, 0.0,
      Runtime(true, 0.0, Never), Runtime(true, 0.0, At(1.0)), Runtime(true, 1.0, Never),
      [Call(n.first, 0.0, true), Call(n.second, 0.0, true), Call(n.third, 0.5, true), Call(n.third, 0.5, false)]);
    TestMachineValid(n, true, false, Some(n.second), 0.0,
      Runtime(true, 0.0, Never), Runtime(false, 0.0, At(1.0)), Runtime(true, 1.0, Never),
      [Call(n.first, 0.0, true), Call(n.second, 0.0, true), Call(n.third, 0.5, true), Call(n.third, 0.5, false)]);
    TestStep10(n);
    assert Perform(reg, body, m, EngageOp(Some(n.second), false), 1) == Engage(reg, m, Some(n.second), false);
  }

  /** Call 10 of the test. */
  lemma TestCall10(n: Names)
    requires Distinct(n)
    ensures StepsTo(TestRegistry(n), TestBody(n),
      TestMachine(n, true, false, Some(n.second), 0.0,
      Runtime(true, 0.0, Never), Runtime(false, 0.0, At(1.0)), Runtime(true, 1.0, Never),
      [Call(n.first, 0.0, true), Call(n.second, 0.0, true), Call(n.third, 0.5, true), Call(n.third, 0.5, false)]),
      ExecuteOp(1.5),
      TestMachine(n, false, true, Some(n.second), 1.5,
      Runtime(true, 0.0, Never), Runtime(true, 0.0, At(1.0)), Runtime(true, 1.0, Never),
      [Call(n.first, 0.0, true), Call(n.second, 0.0, true), Call(n.third, 0.5, true), Call(n.third, 0.5, false), Call(n.second, 0.0, true)]),
      Seen(n.second, true))
  {
    var reg, body := TestRegistry(n), TestBody(n);
    var m := TestMachine(n, true, false, Some(n.second), 0.0,
      Runtime(true, 0.0, Never), Runtime(false, 0.0, At(1.0)), Runtime(true, 1.0, Never),
      [Call(n.first, 0.0, true), Call(n.second, 0.0, true), Call(n.third, 0.5, true), Call(n.third, 0.5, false)]);
    TestRegistryOk(n);
    TestMachineValid(n, true, false, Some(n.second), 0.0,
      Runtime(true, 0.0, Never), Runtime(false, 0.0, At(1.0)), Runtime(true, 1.0, Never),
      [Call(n.first, 0.0, true), Call(n.second, 0.0, true), Call(n.third, 0.5, true), Call(n.third, 0.5, false)]);
    TestMachineValid(n, false, true, Some(n.second), 1.5,
      Runtime(true, 0.0, Never), Runtime(true, 0.0, At(1.0)), Runtime(true, 1.0, Never),
      [Call(n.first, 0.0, true), Call(n.second, 0.0, true), Call(n.third, 0.5, true), Call(n.third, 0.5, false), Call(n.second, 0.0, true)]);
    TestStep11(n);
    assert Perform(reg, body, m, ExecuteOp(1.5), 1) == Execute(reg, body, m, 1.5, 1);
  }

  /** Call 11 of the test. */
  lemma TestCall11(n: Names)
    requires Distinct(n)
    ensures StepsTo(TestRegistry(n), TestBody(n),
      TestMachine(n, false, true, Some(n.second), 1.5,
      Runtime(true, 0.0, Never), Runtime(true, 0.0, At(1.0)), Runtime(true, 1.0, Never),
      [Call(n.first, 0.0, true), Call(n.second, 0.0, true), Call(n.third, 0.5, true), Call(n.third, 0.5, false), Call(n.second, 0.0, true)]),
      EngageOp(None, false),
      TestMachine(n, true, true, Some(n.second), 1.5,
      Runtime(true, 0.0, Never), Runtime(true, 0.0, At(1.0)), Runtime(true, 1.0, Never),
      [Call(n.first, 0.0, true), Call(n.second, 0.0, true), Call(n.third, 0.5, true), Call(n.third, 0.5, false), Call(n.second, 0.0, true)]),
      Seen(n.second, true))
  {
    var reg, body := TestRegistry(n), TestBody(n);
    var m := TestMachine(n, false, true, Some(n.second), 1.5,
      Runtime(true, 0.0, Never), Runtime(true, 0.0, At(1.0)), Runtime(true, 1.0, Never),
      [Call(n.first, 0.0, true), Call(n.second, 0.0, true), Call(n.third, 0.5, true), Call(n.third, 0.5, false), Call(n.second, 0.0, true)]);
    TestRegistryOk(n);
    TestMachineValid(n, false, true, Some(n.second), 1.5,
      Runtime(true, 0.0, Never), Runtime(true, 0.0, At(1.0)), Runtime(true, 1.0, Never),
      [Call(n.first, 0.0, true), Call(n.second, 0.0, true), Call(n.third, 0.5, true), Call(n.third, 0.5, false), Call(n.second, 0.0, true)]);
    TestMachineValid(n, true, true, Some(n.second), 1.5,
      Runtime(true, 0.0, Never), Runtime(true, 0.0, At(1.0)), Runtime(true, 1.0, Never),
      [Call(n.first, 0.0, true), Call(n.second, 0.0, true), Call(n.third, 0.5, true), Call(n.third, 0.5, false), Call(n.second, 0.0, true)]);
    TestStep12(n);
    assert Perform(reg, body, m, EngageOp(None, false), 1) == Engage(reg, m, None, false);
  }

  /** Call 12 of the test. */
  lemma TestCall12(n: Names)
    requires Distinct(n)
    ensures StepsTo(TestRegistry(n), TestBody(n),
      TestMachine(n, true, true, Some(n.second), 1.5,
      Runtime(true, 0.0, Never), Runtime(true, 0.0, At(1.0)), Runtime(true, 1.0, Never),
      [Call(n.first, 0.0, true), Call(n.second, 0.0, true), Call(n.third, 0.5, true), Call(n.third, 0.5, false), Call(n.second, 0.0, true)]),
      ExecuteOp(3.0),
      TestMachine(n, false, true, Some(n.third), 1.5,
      Runtime(true, 0.0, Never), Runtime(true, 0.0, At(1.0)), Runtime(true, 1.0, Never),
      [Call(n.first, 0.0, true), Call(n.second, 0.0, true), Call(n.third, 0.5, true), Call(n.third, 0.5, false), Call(n.second, 0.0, true), Call(n.third, 0.5, true)]),
      Seen(n.third, true))
  {
    var reg, body := TestRegistry(n), TestBody(n);
    var m := TestMachine(n, true, true, Some(n.second), 1.5,
      Runtime(true, 0.0, Never), Runtime(true, 0.0, At(1.0)), Runtime(true, 1.0, Never),
      [Call(n.first, 0.0, true), Call(n.second, 0.0, true), Call(n.third, 0.5, true), Call(n.third, 0.5, false), Call(n.second, 0.0, true)]);
    TestRegistryOk(n);
    TestMachineValid(n, true, true, Some(n.second), 1.5,
      Runtime(true, 0.0, Never), Runtime(true, 0.0, At(1.0)), Runtime(true, 1.0, Never),
      [Call(n.first, 0.0, true), Call(n.second, 0.0, true), Call(n.third, 0.5, true), Call(n.third, 0.5, false), Call(n.second, 0.0, true)]);
    TestMachineValid(n, false, true, Some(n.third), 1.5,
      Runtime(true, 0.0, Never), Runtime(true, 0.0, At(1.0)), Runtime(true, 1.0, Never),
      [Call(n.first, 0.0, true), Call(n.second, 0.0, true), Call(n.third, 0.5, true), Call(n.third, 0.5, false), Call(n.second, 0.0, true), Call(n.third, 0.5, true)]);
    TestStep13(n);
    assert Perform(reg, body, m, ExecuteOp(3.0), 1) == Execute(reg, body, m, 3.0, 1);
  }

  /** Call 13 of the test. */
  lemma TestCall13(n: Names)
    requires Distinct(n)
    ensures StepsTo(TestRegistry(n), TestBody(n),
      TestMachine(n, false, true, Some(n.third), 1.5,
      Runtime(true, 0.0, Never), Runtime(true, 0.0, At(1.0)), Runtime(true, 1.0, Never),
      [Call(n.first, 0.0, true), Call(n.second, 0.0, true), Call(n.third, 0.5, true), Call(n.third, 0.5, false), Call(n.second, 0.0, true), Call(n.third, 0.5, true)]),
      EngageOp(None, false),
      TestMachine(n, true, true, Some(n.third), 1.5,
      Runtime(true, 0.0, Never), Runtime(true, 0.0, At(1.0)), Runtime(true, 1.0, Never),
      [Call(n.first, 0.0, true), Call(n.second, 0.0, true), Call(n.third, 0.5, true), Call(n.third, 0.5, false), Call(n.second, 0.0, true), Call(n.third, 0.5, true)]),
      Seen(n.third, true))
  {
    var reg, body := TestRegistry(n), TestBody(n);
    var m := TestMachine(n, false, true, Some(n.third), 1.5,
      Runtime(true, 0.0, Never), Runtime(true, 0.0, At(1.0)), Runtime(true, 1.0, Never),
      [Call(n.first, 0.0, true), Call(n.second, 0.0, true), Call(n.third, 0.5, true), Call(n.third, 0.5, false), Call(n.second, 0.0, true), Call(n.third, 0.5, true)]);
    TestRegistryOk(n);
    TestMachineValid(n, false, true, Some(n.third), 1.5,
      Runtime(true, 0.0, Never), Runtime(true, 0.0, At(1.0)), Runtime(true, 1.0, Never),
      [Call(n.first, 0.0, true), Call(n.second, 0.0, true), Call(n.third, 0.5, true), Call(n.third, 0.5, false), Call(n.second, 0.0, true), Call(n.third, 0.5, true)]);
    TestMachineValid(n, true, true, Some(n.third), 1.5,
      Runtime(true, 0.0, Never), Runtime(true, 0.0, At(1.0)), Runtime(true, 1.0, Never),
      [Call(n.first, 0.0, true), Call(n.second, 0.0, true), Call(n.third, 0.5, true), Call(n.third, 0.5, false), Call(n.second, 0.0, true), Call(n.third, 0.5, true)]);
    TestStep14(n);
    assert Perform(reg, body, m, EngageOp(None, false), 1) == Engage(reg, m, None, false);
  }

  /** Call 14 of the test. */
  lemma TestCall14(n: Names)
    requires Distinct(n)
    ensures StepsTo(TestRegistry(n), TestBody(n),
      TestMachine(n, true, true, Some(n.third), 1.5,
      Runtime(true, 0.0, Never), Runtime(true, 0.0, At(1.0)), Runtime(true, 1.0, Never),
      [Call(n.first, 0.0, true), Call(n.second, 0.0, true), Call(n.third, 0.5, true), Call(n.third, 0.5, false), Call(n.second, 0.0, true), Call(n.third, 0.5, true)]),
      ExecuteOp(3.0),
      TestMachine(n, false, true, Some(n.third), 1.5,
      Runtime(true, 0.0, Never), Runtime(true, 0.0, At(1.0)), Runtime(true, 1.0, Never),
      [Call(n.first, 0.0, true), Call(n.second, 0.0, true), Call(n.third, 0.5, true), Call(n.third, 0.5, false), Call(n.second, 0.0, true), Call(n.third, 0.5, true), Call(n.third, 0.5, false)]),
      Seen(n.third, true))
  {
    var reg, body := TestRegistry(n), TestBody(n);
    var m := TestMachine(n, true, true, Some(n.third), 1.5,
      Runtime(true, 0.0, Never), Runtime(true, 0.0, At(1.0)), Runtime(true, 1.0, Never),
      [Call(n.first, 0.0, true), Call(n.second, 0.0, true), Call(n.third, 0.5, true), Call(n.third, 0.5, false), Call(n.second, 0.0, true), Call(n.third, 0.5, true)]);
    TestRegistryOk(n);
    TestMachineValid(n, true, true, Some(n.third), 1.5,
      Runtime(true, 0.0, Never), Runtime(true, 0.0, At(1.0)), Runtime(true, 1.0, Never),
      [Call(n.first, 0.0, true), Call(n.second, 0.0, true), Call(n.third, 0.5, true), Call(n.third, 0.5, false), Call(n.second, 0.0, true), Call(n.third, 0.5, true)]);
    TestMachineValid(n, false, true, Some(n.third), 1.5,
      Runtime(true, 0.0, Never), Runtime(true, 0.0, At(1.0)), Runtime(true, 1.0, Never),
      [Call(n.first, 0.0, true), Call(n.second, 0.0, true), Call(n.third, 0.5, true), Call(n.third, 0.5, false), Call(n.second, 0.0, true), Call(n.third, 0.5, true), Call(n.third, 0.5, false)]);
    TestStep15(n);
    assert Perform(reg, body, m, ExecuteOp(3.0), 1) == Execute(reg, body, m, 3.0, 1);
  }

  /** Call 15 of the test. */
  lemma TestCall15(n: Names)
    requires Distinct(n)
    ensures StepsTo(TestRegistry(n), TestBody(n),
      TestMachine(n, false, true, Some(n.third), 1.5,
      Runtime(true, 0.0, Never), Runtime(true, 0.0, At(1.0)), Runtime(true, 1.0, Never),
      [Call(n.first, 0.0, true), Call(n.second, 0.0, true), Call(n.third, 0.5, true), Call(n.third, 0.5, false), Call(n.second, 0.0, true), Call(n.third, 0.5, true), Call(n.third, 0.5, false)]),
      EngageOp(None, true),
      TestMachine(n, true, true, Some(n.first), 1.5,
      Runtime(false, 0.0, Never), Runtime(true, 0.0, At(1.0)), Runtime(true, 1.0, Never),
      [Call(n.first, 0.0, true), Call(n.second, 0.0, true), Call(n.third, 0.5, true), Call(n.third, 0.5, false), Call(n.second, 0.0, true), Call(n.third, 0.5, true), Call(n.third, 0.5, false)]),
      Seen(n.first, true))
  {
    var reg, body := TestRegistry(n), TestBody(n);
    var m := TestMachine(n, false, true, Some(n.third), 1.5,
      Runtime(true, 0.0, Never), Runtime(true, 0.0, At(1.0)), Runtime(true, 1.0, Never),
      [Call(n.first, 0.0, true), Call(n.second, 0.0, true), Call(n.third, 0.5, true), Call(n.third, 0.5, false), Call(n.second, 0.0, true), Call(n.third, 0.5, true), Call(n.third, 0.5, false)]);
    TestRegistryOk(n);
    TestMachineValid(n, false, true, Some(n.third), 1.5,
      Runtime(true, 0.0, Never), Runtime(true, 0.0, At(1.0)), Runtime(true, 1.0, Never),
      [Call(n.first, 0.0, true), Call(n.second, 0.0, true), Call(n.third, 0.5, true), Call(n.third, 0.5, false), Call(n.second, 0.0, true), Call(n.third, 0.5, true), Call(n.third, 0.5, false)]);
    TestMachineValid(n, true, true, Some(n.first), 1.5,
      Runtime(false, 0.0, Never), Runtime(true, 0.0, At(1.0)), Runtime(true, 1.0, Never),
      [Call(n.first, 0.0, true), Call(n.second, 0.0, true), Call(n.third, 0.5, true), Call(n.third, 0.5, false), Call(n.second, 0.0, true), Call(n.third, 0.5, true), Call(n.third, 0.5, false)]);
    TestStep16(n);
    assert Perform(reg, body, m, EngageOp(None, true), 1) == Engage(reg, m, None, true);
  }

  /** Call 16 of the test. */
  lemma TestCall16(n: Names)
    requires Distinct(n)
    ensures StepsTo(TestRegistry(n), TestBody(n),
      TestMachine(n, true, true, Some(n.first), 1.5,
      Runtime(false, 0.0, Never), Runtime(true, 0.0, At(1.0)), Runtime(true, 1.0, Never),
      [Call(n.first, 0.0, true), Call(n.second, 0.0, true), Call(n.third, 0.5, true), Call(n.third, 0.5, false), Call(n.second, 0.0, true), Call(n.third, 0.5, true), Call(n.third, 0.5, false)]),
      ExecuteOp(3.0),
      TestMachine(n, false, true, Some(n.second), 1.5,
      Runtime(true, 1.5, Never), Runtime(false, 0.0, At(1.0)), Runtime(true, 1.0, Never),
      [Call(n.first, 0.0, true), Call(n.second, 0.0, true), Call(n.third, 0.5, true), Call(n.third, 0.5, false), Call(n.second, 0.0, true), Call(n.third, 0.5, true), Call(n.third, 0.5, false), Call(n.first, 0.0, true)]),
      Seen(n.second, true))
  {
    var reg, body := TestRegistry(n), TestBody(n);
    var m := TestMachine(n, true, true, Some(n.first), 1.5,
      Runtime(false, 0.0, Never), Runtime(true, 0.0, At(1.0)), Runtime(true, 1.0, Never),
      [Call(n.first, 0.0, true), Call(n.second, 0.0, true), Call(n.third, 0.5, true), Call(n.third, 0.5, false), Call(n.second, 0.0, true), Call(n.third, 0.5, true), Call(n.third, 0.5, false)]);
    TestRegistryOk(n);
    TestMachineValid(n, true, true, Some(n.first), 1.5,
      Runtime(false, 0.0, Never), Runtime(true, 0.0, At(1.0)), Runtime(true, 1.0, Never),
      [Call(n.first, 0.0, true), Call(n.second, 0.0, true), Call(n.third, 0.5, true), Call(n.third, 0.5, false), Call(n.second, 0.0, true), Call(n.third, 0.5, true), Call(n.third, 0.5, false)]);
    TestMachineValid(n, false, true, Some(n.second), 1.5,
      Runtime(true, 1.5, Never), Runtime(false, 0.0, At(1.0)), Runtime(true, 1.0, Never),
      [Call(n.first, 0.0, true), Call(n.second, 0.0, true), Call(n.third, 0.5, true), Call(n.third, 0.5, false), Call(n.second, 0.0, true), Call(n.third, 0.5, true), Call(n.third, 0.5, false), Call(n.first, 0.0, true)]);
    TestStep17(n);
    assert Perform(reg, body, m, ExecuteOp(3.0), 1) == Execute(reg, body, m, 3.0, 1);
  }

  /** Call 17 of the test. */
  lemma TestCall17(n: Names)
    requires Distinct(n)
    ensures StepsTo(TestRegistry(n), TestBody(n),
      TestMachine(n, false, true, Some(n.second), 1.5,
      Runtime(true, 1.5, Never), Runtime(false, 0.0, At(1.0)), Runtime(true, 1.0, Never),
      [Call(n.first, 0.0, true), Call(n.second, 0.0, true), Call(n.third, 0.5, true), Call(n.third, 0.5, false), Call(n.second, 0.0, true), Call(n.third, 0.5, true), Call(n.third, 0.5, false), Call(n.first, 0.0, true)]),
      ExecuteOp(3.0),
      TestMachine(n, false, false, None, 1.5,
      Runtime(true, 1.5, Never), Runtime(false, 0.0, At(1.0)), Runtime(true, 1.0, Never),
      [Call(n.first, 0.0, true), Call(n.second, 0.0, true), Call(n.third, 0.5, true), Call(n.third, 0.5, false), Call(n.second, 0.0, true), Call(n.third, 0.5, true), Call(n.third, 0.5, false), Call(n.first, 0.0, true)]),
      Seen("", false))
  {
    var reg, body := TestRegistry(n), TestBody(n);
    var m := TestMachine(n, false, true, Some(n.second), 1.5,
      Runtime(true, 1.5, Never), Runtime(false, 0.0, At(1.0)), Runtime(true, 1.0, Never),
      [Call(n.first, 0.0, true), Call(n.second, 0.0, true), Call(n.third, 0.5, true), Call(n.third, 0.5, false), Call(n.second, 0.0, true), Call(n.third, 0.5, true), Call(n.third, 0.5, false), Call(n.first, 0.0, true)]);
    TestRegistryOk(n);
    TestMachineValid(n, false, true, Some(n.second), 1.5,
      Runtime(true, 1.5, Never), Runtime(false, 0.0, At(1.0)), Runtime(true, 1.0, Never),
      [Call(n.first, 0.0, true), Call(n.second, 0.0, true), Call(n.third, 0.5, true), Call(n.third, 0.5, false), Call(n.second, 0.0, true), Call(n.third, 0.5, true), Call(n.third, 0.5, false), Call(n.first, 0.0, true)]);
    TestMachineValid(n, false, false, None, 1.5,
      Runtime(true, 1.5, Never), Runtime(false, 0.0, At(1.0)), Runtime(true, 1.0, Never),
      [Call(n.first, 0.0, true), Call(n.second, 0.0, true), Call(n.third, 0.5, true), Call(n.third, 0.5, false), Call(n.second, 0.0, true), Call(n.third, 0.5, true), Call(n.third, 0.5, false), Call(n.first, 0.0, true)]);
    TestStep18(n);
    assert Perform(reg, body, m, ExecuteOp(3.0), 1) == Execute(reg, body, m, 3.0, 1);
  }

  /** The test's calls from call 17 on. */
  lemma ReplayFrom17(n: Names)
    requires Distinct(n)
    ensures RegistryOk(TestRegistry(n))
    ensures ValidMachine(TestRegistry(n), TestMachine(n, false, true, Some(n.second), 1.5,
      Runtime(true, 1.5, Never), Runtime(false, 0.0, At(1.0)), Runtime(true, 1.0, Never),
      [Call(n.first, 0.0, true), Call(n.second, 0.0, true), Call(n.third, 0.5, true), Call(n.third, 0.5, false), Call(n.second, 0.0, true), Call(n.third, 0.5, true), Call(n.third, 0.5, false), Call(n.first, 0.0, true)]))
    ensures Replay(TestRegistry(n), TestBody(n),
      TestMachine(n, false, true, Some(n.second), 1.5,
      Runtime(true, 1.5, Never), Runtime(false, 0.0, At(1.0)), Runtime(true, 1.0, Never),
      [Call(n.first, 0.0, true), Call(n.second, 0.0, true), Call(n.third, 0.5, true), Call(n.third, 0.5, false), Call(n.second, 0.0, true), Call(n.third, 0.5, true), Call(n.third, 0.5, false), Call(n.first, 0.0, true)]),
      TestOps(n)[17..], 1)
      == (Step(TestMachine(n, false, false, None, 1.5,
      Runtime(true, 1.5, Never), Runtime(false, 0.0, At(1.0)), Runtime(true, 1.0, Never),
      [Call(n.first, 0.0, true), Call(n.second, 0.0, true), Call(n.third, 0.5, true), Call(n.third, 0.5, false), Call(n.second, 0.0, true), Call(n.third, 0.5, true), Call(n.third, 0.5, false), Call(n.first, 0.0, true)]), None),
      ExpectedSeen(n)[17..])
  {
    TestCall17(n);
    assert TestOps(n)[17] == ExecuteOp(3.0);
    assert ExpectedSeen(n)[17] == Seen("", false);
    assert TestOps(n)[18..] == [] && ExpectedSeen(n)[18..] == [];
    ReplayCons(TestRegistry(n), TestBody(n),
      TestMachine(n, false, true, Some(n.second), 1.5,
      Runtime(true, 1.5, Never), Runtime(false, 0.0, At(1.0)), Runtime(true, 1.0, Never),
      [Call(n.first, 0.0, true), Call(n.second, 0.0, true), Call(n.third, 0.5, true), Call(n.third, 0.5, false), Call(n.second, 0.0, true), Call(n.third, 0.5, true), Call(n.third, 0.5, false), Call(n.first, 0.0, true)]),
      TestMachine(n, false, false, None, 1.5,
      Runtime(true, 1.5, Never), Runtime(false, 0.0, At(1.0)), Runtime(true, 1.0, Never),
      [Call(n.first, 0.0, true), Call(n.second, 0.0, true), Call(n.third, 0.5, true), Call(n.third, 0.5, false), Call(n.second, 0.0, true), Call(n.third, 0.5, true), Call(n.third, 0.5, false), Call(n.first, 0.0, true)]),
      TestMachine(n, false, false, None, 1.5,
      Runtime(true, 1.5, Never), Runtime(false, 0.0, At(1.0)), Runtime(true, 1.0, Never),
      [Call(n.first, 0.0, true), Call(n.second, 0.0, true), Call(n.third, 0.5, true), Call(n.third, 0.5, false), Call(n.second, 0.0, true), Call(n.third, 0.5, true), Call(n.third, 0.5, false), Call(n.first, 0.0, true)]),
      TestOps(n), ExpectedSeen(n), 17);
  }

  /** The test's calls from call 16 on. */
  lemma ReplayFrom16(n: Names)
    requires Distinct(n)
    ensures RegistryOk(TestRegistry(n))
    ensures ValidMachine(TestRegistry(n), TestMachine(n, true, true, Some(n.first), 1.5,
      Runtime(false, 0.0, Never), Runtime(true, 0.0, At(1.0)), Runtime(true, 1.0, Never),
      [Call(n.first, 0.0, true), Call(n.second, 0.0, true), Call(n.third, 0.5, true), Call(n.third, 0.5, false), Call(n.second, 0.0, true), Call(n.third, 0.5, true), Call(n.third, 0.5, false)]))
    ensures Replay(TestRegistry(n), TestBody(n),
      TestMachine(n, true, true, Some(n.first), 1.5,
      Runtime(false, 0.0, Never), Runtime(true, 0.0, At(1.0)), Runtime(true, 1.0, Never),
      [Call(n.first, 0.0, true), Call(n.second, 0.0, true), Call(n.third, 0.5, true), Call(n.third, 0.5, false), Call(n.second, 0.0, true), Call(n.third, 0.5, true), Call(n.third, 0.5, false)]),
      TestOps(n)[16..], 1)
      == (Step(TestMachine(n, false, false, None, 1.5,
      Runtime(true, 1.5, Never), Runtime(false, 0.0, At(1.0)), Runtime(true, 1.0, Never),
      [Call(n.first, 0.0, true), Call(n.second, 0.0, true), Call(n.third, 0.5, true), Call(n.third, 0.5, false), Call(n.second, 0.0, true), Call(n.third, 0.5, true), Call(n.third, 0.5, false), Call(n.first, 0.0, true)]), None),
      ExpectedSeen(n)[16..])
  {
    TestCall16(n);
    assert TestOps(n)[16] == ExecuteOp(3.0);
    assert ExpectedSeen(n)[16] == Seen(n.second, true);
    ReplayFrom17(n);
    ReplayCons(TestRegistry(n), TestBody(n),
      TestMachine(n, true, true, Some(n.first), 1.5,
      Runtime(false, 0.0, Never), Runtime(true, 0.0, At(1.0)), Runtime(true, 1.0, Never),
      [Call(n.first, 0.0, true), Call(n.second, 0.0, true), Call(n.third, 0.5, true), Call(n.third, 0.5, false), Call(n.second, 0.0, true), Call(n.third, 0.5, true), Call(n.third, 0.5, false)]),
      TestMachine(n, false, true, Some(n.second), 1.5,
      Runtime(true, 1.5, Never), Runtime(false, 0.0, At(1.0)), Runtime(true, 1.0, Never),
      [Call(n.first, 0.0, true), Call(n.second, 0.0, true), Call(n.third, 0.5, true), Call(n.third, 0.5, false), Call(n.second, 0.0, true), Call(n.third, 0.5, true), Call(n.third, 0.5, false), Call(n.first, 0.0, true)]),
      TestMachine(n, false, false, None, 1.5,
      Runtime(true, 1.5, Never), Runtime(false, 0.0, At(1.0)), Runtime(true, 1.0, Never),
      [Call(n.first, 0.0, true), Call(n.second, 0.0, true), Call(n.third, 0.5, true), Call(n.third, 0.5, false), Call(n.second, 0.0, true), Call(n.third, 0.5, true), Call(n.third, 0.5, false), Call(n.first, 0.0, true)]),
      TestOps(n), ExpectedSeen(n), 16);
  }

  /** The test's calls from call 15 on. */
  lemma ReplayFrom15(n: Names)
    requires Distinct(n)
    ensures RegistryOk(TestRegistry(n))
    ensures ValidMachine(TestRegistry(n), TestMachine(n, false, true, Some(n.third), 1.5,
      Runtime(true, 0.0, Never), Runtime(true, 0.0, At(1.0)), Runtime(true, 1.0, Never),
      [Call(n.first, 0.0, true), Call(n.second, 0.0, true), Call(n.third, 0.5, true), Call(n.third, 0.5, false), Call(n.second, 0.0, true), Call(n.third, 0.5, true), Call(n.third, 0.5, false)]))
    ensures Replay(TestRegistry(n), TestBody(n),
      TestMachine(n, false, true, Some(n.third), 1.5,
      Runtime(true, 0.0, Never), Runtime(true, 0.0, At(1.0)), Runtime(true, 1.0, Never),
      [Call(n.first, 0.0, true), Call(n.second, 0.0, true), Call(n.third, 0.5, true), Call(n.third, 0.5, false), Call(n.second, 0.0, true), Call(n.third, 0.5, true), Call(n.third, 0.5, false)]),
      TestOps(n)[15..], 1)
      == (Step(TestMachine(n, false, false, None, 1.5,
      Runtime(true, 1.5, Never), Runtime(false, 0.0, At(1.0)), Runtime(true, 1.0, Never),
      [Call(n.first, 0.0, true), Call(n.second, 0.0, true), Call(n.third, 0.5, true), Call(n.third, 0.5, false), Call(n.second, 0.0, true), Call(n.third, 0.5, true), Call(n.third, 0.5, false), Call(n.first, 0.0, true)]), None),
      ExpectedSeen(n)[15..])
  {
    TestCall15(n);
    assert TestOps(n)[15] == EngageOp(None, true);
    assert ExpectedSeen(n)[15] == Seen(n.first, true);
    ReplayFrom16(n);
    ReplayCons(TestRegistry(n), TestBody(n),
      TestMachine(n, false, true, Some(n.third), 1.5,
      Runtime(true, 0.0, Never), Runtime(true, 0.0, At(1.0)), Runtime(true, 1.0, Never),
      [Call(n.first, 0.0, true), Call(n.second, 0.0, true), Call(n.third, 0.5, true), Call(n.third, 0.5, false), Call(n.second, 0.0, true), Call(n.third, 0.5, true), Call(n.third, 0.5, false)]),
      TestMachine(n, true, true, Some(n.first), 1.5,
      Runtime(false, 0.0, Never), Runtime(true, 0.0, At(1.0)), Runtime(true, 1.0, Never),
      [Call(n.first, 0.0, true), Call(n.second, 0.0, true), Call(n.third, 0.5, true), Call(n.third, 0.5, false), Call(n.second, 0.0, true), Call(n.third, 0.5, true), Call(n.third, 0.5, false)]),
      TestMachine(n, false, false, None, 1.5,
      Runtime(true, 1.5, Never), Runtime(false, 0.0, At(1.0)), Runtime(true, 1.0, Never),
      [Call(n.first, 0.0, true), Call(n.second, 0.0, true), Call(n.third, 0.5, true), Call(n.third, 0.5, false), Call(n.second, 0.0, true), Call(n.third, 0.5, true), Call(n.third, 0.5, false), Call(n.first, 0.0, true)]),
      TestOps(n), ExpectedSeen(n), 15);
  }

  /** The test's calls from call 14 on. */
  lemma ReplayFrom14(n: Names)
    requires Distinct(n)
    ensures RegistryOk(TestRegistry(n))
    ensures ValidMachine(TestRegistry(n), TestMachine(n, true, true, Some(n.third), 1.5,
      Runtime(true, 0.0, Never), Runtime(true, 0.0, At(1.0)), Runtime(true, 1.0, Never),
      [Call(n.first, 0.0, true), Call(n.second, 0.0, true), Call(n.third, 0.5, true), Call(n.third, 0.5, false), Call(n.second, 0.0, true), Call(n.third, 0.5, true)]))
    ensures Replay(TestRegistry(n), TestBody(n),
      TestMachine(n, true, true, Some(n.third), 1.5,
      Runtime(true, 0.0, Never), Runtime(true, 0.0, At(1.0)), Runtime(true, 1.0, Never),
      [Call(n.first, 0.0, true), Call(n.second, 0.0, true), Call(n.third, 0.5, true), Call(n.third, 0.5, false), Call(n.second, 0.0, true), Call(n.third, 0.5, true)]),
      TestOps(n)[14..], 1)
      == (Step(TestMachine(n, false, false, None, 1.5,
      Runtime(true, 1.5, Never), Runtime(false, 0.0, At(1.0)), Runtime(true, 1.0, Never),
      [Call(n.first, 0.0, true), Call(n.second, 0.0, true), Call(n.third, 0.5, true), Call(n.third, 0.5, false), Call(n.second, 0.0, true), Call(n.third, 0.5, true), Call(n.third, 0.5, false), Call(n.first, 0.0, true)]), None),
      ExpectedSeen(n)[14..])
  {
    TestCall14(n);
    assert TestOps(n)[14] == ExecuteOp(3.0);
    assert ExpectedSeen(n)[14] == Seen(n.third, true);
    ReplayFrom15(n);
    ReplayCons(TestRegistry(n), TestBody(n),
      TestMachine(n, true, true, Some(n.third), 1.5,
      Runtime(true, 0.0, Never), Runtime(true, 0.0, At(1.0)), Runtime(true, 1.0, Never),
      [Call(n.first, 0.0, true), Call(n.second, 0.0, true), Call(n.third, 0.5, true), Call(n.third, 0.5, false), Call(n.second, 0.0, true), Call(n.third, 0.5, true)]),
      TestMachine(n, false, true, Some(n.third), 1.5,
      Runtime(true, 0.0, Never), Runtime(true, 0.0, At(1.0)), Runtime(true, 1.0, Never),
      [Call(n.first, 0.0, true), Call(n.second, 0.0, true), Call(n.third, 0.5, true), Call(n.third, 0.5, false), Call(n.second, 0.0, true), Call(n.third, 0.5, true), Call(n.third, 0.5, false)]),
      TestMachine(n, false, false, None, 1.5,
      Runtime(true, 1.5, Never), Runtime(false, 0.0, At(1.0)), Runtime(true, 1.0, Never),
      [Call(n.first, 0.0, true), Call(n.second, 0.0, true), Call(n.third, 0.5, true), Call(n.third, 0.5, false), Call(n.second, 0.0, true), Call(n.third, 0.5, true), Call(n.third, 0.5, false), Call(n.first, 0.0, true)]),
      TestOps(n), ExpectedSeen(n), 14);
  }

  /** The test's calls from call 13 on. */
  lemma ReplayFrom13(n: Names)
    requires Distinct(n)
    ensures RegistryOk(TestRegistry(n))
    ensures ValidMachine(TestRegistry(n), TestMachine(n, false, true, Some(n.third), 1.5,
      Runtime(true, 0.0, Never), Runtime(true, 0.0, At(1.0)), Runtime(true, 1.0, Never),
      [Call(n.first, 0.0, true), Call(n.second, 0.0, true), Call(n.third, 0.5, true), Call(n.third, 0.5, false), Call(n.second, 0.0, true), Call(n.third, 0.5, true)]))
    ensures Replay(TestRegistry(n), TestBody(n),
      TestMachine(n, false, true, Some(n.third), 1.5,
      Runtime(true, 0.0, Never), Runtime(true, 0.0, At(1.0)), Runtime(true, 1.0, Never),
      [Call(n.first, 0.0, true), Call(n.second, 0.0, true), Call(n.third, 0.5, true), Call(n.third, 0.5, false), Call(n.second, 0.0, true), Call(n.third, 0.5, true)]),
      TestOps(n)[13..], 1)
      == (Step(TestMachine(n, false, false, None, 1.5,
      Runtime(true, 1.5, Never), Runtime(false, 0.0, At(1.0)), Runtime(true, 1.0, Never),
      [Call(n.first, 0.0, true), Call(n.second, 0.0, true), Call(n.third, 0.5, true), Call(n.third, 0.5, false), Call(n.second, 0.0, true), Call(n.third, 0.5, true), Call(n.third, 0.5, false), Call(n.first, 0.0, true)]), None),
      ExpectedSeen(n)[13..])
  {
    TestCall13(n);
    assert TestOps(n)[13] == EngageOp(None, false);
    assert ExpectedSeen(n)[13] == Seen(n.third, true);
    ReplayFrom14(n);
    ReplayCons(TestRegistry(n), TestBody(n),
      TestMachine(n, false, true, Some(n.third), 1.5,
      Runtime(true, 0.0, Never), Runtime(true, 0.0, At(1.0)), Runtime(true, 1.0, Never),
      [Call(n.first, 0.0, true), Call(n.second, 0.0, true), Call(n.third, 0.5, true), Call(n.third, 0.5, false), Call(n.second, 0.0, true), Call(n.third, 0.5, true)]),
      TestMachine(n, true, true, Some(n.third), 1.5,
      Runtime(true, 0.0, Never), Runtime(true, 0.0, At(1.0)), Runtime(true, 1.0, Never),
      [Call(n.first, 0.0, true), Call(n.second, 0.0, true), Call(n.third, 0.5, true), Call(n.third, 0.5, false), Call(n.second, 0.0, true), Call(n.third, 0.5, true)]),
      TestMachine(n, false, false, None, 1.5,
      Runtime(true, 1.5, Never), Runtime(false, 0.0, At(1.0)), Runtime(true, 1.0, Never),
      [Call(n.first, 0.0, true), Call(n.second, 0.0, true), Call(n.third, 0.5, true), Call(n.third, 0.5, false), Call(n.second, 0.0, true), Call(n.third, 0.5, true), Call(n.third, 0.5, false), Call(n.first, 0.0, true)]),
      TestOps(n), ExpectedSeen(n), 13);
  }

  /** The test's calls from call 12 on. */
  lemma ReplayFrom12(n: Names)
    requires Distinct(n)
    ensures RegistryOk(TestRegistry(n))
    ensures ValidMachine(TestRegistry(n), TestMachine(n, true, true, Some(n.second), 1.5,
      Runtime(true, 0.0, Never), Runtime(true, 0.0, At(1.0)), Runtime(true, 1.0, Never),
      [Call(n.first, 0.0, true), Call(n.second, 0.0, true), Call(n.third, 0.5, true), Call(n.third, 0.5, false), Call(n.second, 0.0, true)]))
    ensures Replay(TestRegistry(n), TestBody(n),
      TestMachine(n, true, true, Some(n.second), 1.5,
      Runtime(true, 0.0, Never), Runtime(true, 0.0, At(1.0)), Runtime(true, 1.0, Never),
      [Call(n.first, 0.0, true), Call(n.second, 0.0, true), Call(n.third, 0.5, true), Call(n.third, 0.5, false), Call(n.second, 0.0, true)]),
      TestOps(n)[12..], 1)
      == (Step(TestMachine(n, false, false, None, 1.5,
      Runtime(true, 1.5, Never), Runtime(false, 0.0, At(1.0)), Runtime(true, 1.0, Never),
      [Call(n.first, 0.0, true), Call(n.second, 0.0, true), Call(n.third, 0.5, true), Call(n.third, 0.5, false), Call(n.second, 0.0, true), Call(n.third, 0.5, true), Call(n.third, 0.5, false), Call(n.first, 0.0, true)]), None),
      ExpectedSeen(n)[12..])
  {
    TestCall12(n);
    assert TestOps(n)[12] == ExecuteOp(3.0);
    assert ExpectedSeen(n)[12] == Seen(n.third, true);
    ReplayFrom13(n);
    ReplayCons(TestRegistry(n), TestBody(n),
      TestMachine(n, true, true, Some(n.second), 1.5,
      Runtime(true, 0.0, Never), Runtime(true, 0.0, At(1.0)), Runtime(true, 1.0, Never),
      [Call(n.first, 0.0, true), Call(n.second, 0.0, true), Call(n.third, 0.5, true), Call(n.third, 0.5, false), Call(n.second, 0.0, true)]),
      TestMachine(n, false, true, Some(n.third), 1.5,
      Runtime(true, 0.0, Never), Runtime(true, 0.0, At(1.0)), Runtime(true, 1.0, Never),
      [Call(n.first, 0.0, true), Call(n.second, 0.0, true), Call(n.third, 0.5, true), Call(n.third, 0.5, false), Call(n.second, 0.0, true), Call(n.third, 0.5, true)]),
      TestMachine(n, false, false, None, 1.5,
      Runtime(true, 1.5, Never), Runtime(false, 0.0, At(1.0)), Runtime(true, 1.0, Never),
      [Call(n.first, 0.0, true), Call(n.second, 0.0, true), Call(n.third, 0.5, true), Call(n.third, 0.5, false), Call(n.second, 0.0, true), Call(n.third, 0.5, true), Call(n.third, 0.5, false), Call(n.first, 0.0, true)]),
      TestOps(n), ExpectedSeen(n), 12);
  }

  /** The test's calls from call 11 on. */
  lemma ReplayFrom11(n: Names)
    requires Distinct(n)
    ensures RegistryOk(TestRegistry(n))
    ensures ValidMachine(TestRegistry(n), TestMachine(n, false, true, Some(n.second), 1.5,
      Runtime(true, 0.0, Never), Runtime(true, 0.0, At(1.0)), Runtime(true, 1.0, Never),
      [Call(n.first, 0.0, true), Call(n.second, 0.0, true), Call(n.third, 0.5, true), Call(n.third, 0.5, false), Call(n.second, 0.0, true)]))
    ensures Replay(TestRegistry(n), TestBody(n),
      TestMachine(n, false, true, Some(n.second), 1.5,
      Runtime(true, 0.0, Never), Runtime(true, 0.0, At(1.0)), Runtime(true, 1.0, Never),
      [Call(n.first, 0.0, true), Call(n.second, 0.0, true), Call(n.third, 0.5, true), Call(n.third, 0.5, false), Call(n.second, 0.0, true)]),
      TestOps(n)[11..], 1)
      == (Step(TestMachine(n, false, false, None, 1.5,
      Runtime(true, 1.5, Never), Runtime(false, 0.0, At(1.0)), Runtime(true, 1.0, Never),
      [Call(n.first, 0.0, true), Call(n.second, 0.0, true), Call(n.third, 0.5, true), Call(n.third, 0.5, false), Call(n.second, 0.0, true), Call(n.third, 0.5, true), Call(n.third, 0.5, false), Call(n.first, 0.0, true)]), None),
      ExpectedSeen(n)[11..])
  {
    TestCall11(n);
    assert TestOps(n)[11] == EngageOp(None, false);
    assert ExpectedSeen(n)[11] == Seen(n.second, true);
    ReplayFrom12(n);
    ReplayCons(TestRegistry(n), TestBody(n),
      TestMachine(n, false, true, Some(n.second), 1.5,
      Runtime(true, 0.0, Never), Runtime(true, 0.0, At(1.0)), Runtime(true, 1.0, Never),
      [Call(n.first, 0.0, true), Call(n.second, 0.0, true), Call(n.third, 0.5, true), Call(n.third, 0.5, false), Call(n.second, 0.0, true)]),
      TestMachine(n, true, true, Some(n.second), 1.5,
      Runtime(true, 0.0, Never), Runtime(true, 0.0, At(1.0)), Runtime(true, 1.0, Never),
      [Call(n.first, 0.0, true), Call(n.second, 0.0, true), Call(n.third, 0.5, true), Call(n.third, 0.5, false), Call(n.second, 0.0, true)]),
      TestMachine(n, false, false, None, 1.5,
      Runtime(true, 1.5, Never), Runtime(false, 0.0, At(1.0)), Runtime(true, 1.0, Never),
      [Call(n.first, 0.0, true), Call(n.second, 0.0, true), Call(n.third, 0.5, true), Call(n.third, 0.5, false), Call(n.second, 0.0, true), Call(n.third, 0.5, true), Call(n.third, 0.5, false), Call(n.first, 0.0, true)]),
      TestOps(n), ExpectedSeen(n), 11);
  }

  /** The test's calls from call 10 on. */
  lemma ReplayFrom10(n: Names)
    requires Distinct(n)
    ensures RegistryOk(TestRegistry(n))
    ensures ValidMachine(TestRegistry(n), TestMachine(n, true, false, Some(n.second), 0.0,
      Runtime(true, 0.0, Never), Runtime(false, 0.0, At(1.0)), Runtime(true, 1.0, Never),
      [Call(n.first, 0.0, true), Call(n.second, 0.0, true), Call(n.third, 0.5, true), Call(n.third, 0.5, false)]))
    ensures Replay(TestRegistry(n), TestBody(n),
      TestMachine(n, true, false, Some(n.second), 0.0,
      Runtime(true, 0.0, Never), Runtime(false, 0.0, At(1.0)), Runtime(true, 1.0, Never),
      [Call(n.first, 0.0, true), Call(n.second, 0.0, true), Call(n.third, 0.5, true), Call(n.third, 0.5, false)]),
      TestOps(n)[10..], 1)
      == (Step(TestMachine(n, false, false, None, 1.5,
      Runtime(true, 1.5, Never), Runtime(false, 0.0, At(1.0)), Runtime(true, 1.0, Never),
      [Call(n.first, 0.0, true), Call(n.second, 0.0, true), Call(n.third, 0.5, true), Call(n.third, 0.5, false), Call(n.second, 0.0, true), Call(n.third, 0.5, true), Call(n.third, 0.5, false), Call(n.first, 0.0, true)]), None),
      ExpectedSeen(n)[10..])
  {
    TestCall10(n);
    assert TestOps(n)[10] == ExecuteOp(1.5);
    assert ExpectedSeen(n)[10] == Seen(n.second, true);
    ReplayFrom11(n);
    ReplayCons(TestRegistry(n), TestBody(n),
      TestMachine(n, true, false, Some(n.second), 0.0,
      Runtime(true, 0.0, Never), Runtime(false, 0.0, At(1.0)), Runtime(true, 1.0, Never),
      [Call(n.first, 0.0, true), Call(n.second, 0.0, true), Call(n.third, 0.5, true), Call(n.third, 0.5, false)]),
      TestMachine(n, false, true, Some(n.second), 1.5,
      Runtime(true, 0.0, Never), Runtime(true, 0.0, At(1.0)), Runtime(true, 1.0, Never),
      [Call(n.first, 0.0, true), Call(n.second, 0.0, true), Call(n.third, 0.5, true), Call(n.third, 0.5, false), Call(n.second, 0.0, true)]),
      TestMachine(n, false, false, None, 1.5,
      Runtime(true, 1.5, Never), Runtime(false, 0.0, At(1.0)), Runtime(true, 1.0, Never),
      [Call(n.first, 0.0, true), Call(n.second, 0.0, true), Call(n.third, 0.5, true), Call(n.third, 0.5, false), Call(n.second, 0.0, true), Call(n.third, 0.5, true), Call(n.third, 0.5, false), Call(n.first, 0.0, true)]),
      TestOps(n), ExpectedSeen(n), 10);
  }

  /** The test's calls from call 9 on. */
  lemma ReplayFrom9(n: Names)
    requires Distinct(n)
    ensures RegistryOk(TestRegistry(n))
    ensures ValidMachine(TestRegistry(n), TestMachine(n, false, false, None, 0.0,
      Runtime(true, 0.0, Never), Runtime(true, 0.0, At(1.0)), Runtime(true, 1.0, Never),
      [Call(n.first, 0.0, true), Call(n.second, 0.0, true), Call(n.third, 0.5, true), Call(n.third, 0.5, false)]))
    ensures Replay(TestRegistry(n), TestBody(n),
      TestMachine(n, false, false, None, 0.0,
      Runtime(true, 0.0, Never), Runtime(true, 0.0, At(1.0)), Runtime(true, 1.0, Never),
      [Call(n.first, 0.0, true), Call(n.second, 0.0, true), Call(n.third, 0.5, true), Call(n.third, 0.5, false)]),
      TestOps(n)[9..], 1)
      == (Step(TestMachine(n, false, false, None, 1.5,
      Runtime(true, 1.5, Never), Runtime(false, 0.0, At(1.0)), Runtime(true, 1.0, Never),
      [Call(n.first, 0.0, true), Call(n.second, 0.0, true), Call(n.third, 0.5, true), Call(n.third, 0.5, false), Call(n.second, 0.0, true), Call(n.third, 0.5, true), Call(n.third, 0.5, false), Call(n.first, 0.0, true)]), None),
      ExpectedSeen(n)[9..])
  {
    TestCall9(n);
    assert TestOps(n)[9] == EngageOp(Some(n.second), false);
    assert ExpectedSeen(n)[9] == Seen(n.second, false);
    ReplayFrom10(n);
    ReplayCons(TestRegistry(n), TestBody(n),
      TestMachine(n, false, false, None, 0.0,
      Runtime(true, 0.0, Never), Runtime(true, 0.0, At(1.0)), Runtime(true, 1.0, Never),
      [Call(n.first, 0.0, true), Call(n.second, 0.0, true), Call(n.third, 0.5, true), Call(n.third, 0.5, false)]),
      TestMachine(n, true, false, Some(n.second), 0.0,
      Runtime(true, 0.0, Never), Runtime(false, 0.0, At(1.0)), Runtime(true, 1.0, Never),
      [Call(n.first, 0.0, true), Call(n.second, 0.0, true), Call(n.third, 0.5, true), Call(n.third, 0.5, false)]),
      TestMachine(n, false, false, None, 1.5,
      Runtime(true, 1.5, Never), Runtime(false, 0.0, At(1.0)), Runtime(true, 1.0, Never),
      [Call(n.first, 0.0, true), Call(n.second, 0.0, true), Call(n.third, 0.5, true), Call(n.third, 0.5, false), Call(n.second, 0.0, true), Call(n.third, 0.5, true), Call(n.third, 0.5, false), Call(n.first, 0.0, true)]),
      TestOps(n), ExpectedSeen(n), 9);
  }

  /** The test's calls from call 8 on. */
  lemma ReplayFrom8(n: Names)
    requires Distinct(n)
    ensures RegistryOk(TestRegistry(n))
    ensures ValidMachine(TestRegistry(n), TestMachine(n, false, true, Some(n.third), 0.0,
      Runtime(true, 0.0, Never), Runtime(true, 0.0, At(1.0)), Runtime(true, 1.0, Never),
      [Call(n.first, 0.0, true), Call(n.second, 0.0, true), Call(n.third, 0.5, true), Call(n.third, 0.5, false)]))
    ensures Replay(TestRegistry(n), TestBody(n),
      TestMachine(n, false, true, Some(n.third), 0.0,
      Runtime(true, 0.0, Never), Runtime(true, 0.0, At(1.0)), Runtime(true, 1.0, Never),
      [Call(n.first, 0.0, true), Call(n.second, 0.0, true), Call(n.third, 0.5, true), Call(n.third, 0.5, false)]),
      TestOps(n)[8..], 1)
      == (Step(TestMachine(n, false, false, None, 1.5,
      Runtime(true, 1.5, Never), Runtime(false, 0.0, At(1.0)), Runtime(true, 1.0, Never),
      [Call(n.first, 0.0, true), Call(n.second, 0.0, true), Call(n.third, 0.5, true), Call(n.third, 0.5, false), Call(n.second, 0.0, true), Call(n.third, 0.5, true), Call(n.third, 0.5, false), Call(n.first, 0.0, true)]), None),
      ExpectedSeen(n)[8..])
  {
    TestCall8(n);
    assert TestOps(n)[8] == DoneOp;
    assert ExpectedSeen(n)[8] == Seen("", false);
    ReplayFrom9(n);
    ReplayCons(TestRegistry(n), TestBody(n),
      TestMachine(n, false, true, Some(n.third), 0.0,
      Runtime(true, 0.0, Never), Runtime(true, 0.0, At(1.0)), Runtime(true, 1.0, Never),
      [Call(n.first, 0.0, true), Call(n.second, 0.0, true), Call(n.third, 0.5, true), Call(n.third, 0.5, false)]),
      TestMachine(n, false, false, None, 0.0,
      Runtime(true, 0.0, Never), Runtime(true, 0.0, At(1.0)), Runtime(true, 1.0, Never),
      [Call(n.first, 0.0, true), Call(n.second, 0.0, true), Call(n.third, 0.5, true), Call(n.third, 0.5, false)]),
      TestMachine(n, false, false, None, 1.5,
      Runtime(true, 1.5, Never), Runtime(false, 0.0, At(1.0)), Runtime(true, 1.0, Never),
      [Call(n.first, 0.0, true), Call(n.second, 0.0, true), Call(n.third, 0.5, true), Call(n.third, 0.5, false), Call(n.second, 0.0, true), Call(n.third, 0.5, true), Call(n.third, 0.5, false), Call(n.first, 0.0, true)]),
      TestOps(n), ExpectedSeen(n), 8);
  }

  /** The test's calls from call 7 on. */
  lemma ReplayFrom7(n: Names)
    requires Distinct(n)
    ensures RegistryOk(TestRegistry(n))
    ensures ValidMachine(TestRegistry(n), TestMachine(n, true, true, Some(n.third), 0.0,
      Runtime(true, 0.0, Never), Runtime(true, 0.0, At(1.0)), Runtime(true, 1.0, Never),
      [Call(n.first, 0.0, true), Call(n.second, 0.0, true), Call(n.third, 0.5, true)]))
    ensures Replay(TestRegistry(n), TestBody(n),
      TestMachine(n, true, true, Some(n.third), 0.0,
      Runtime(true, 0.0, Never), Runtime(true, 0.0, At(1.0)), Runtime(true, 1.0, Never),
      [Call(n.first, 0.0, true), Call(n.second, 0.0, true), Call(n.third, 0.5, true)]),
      TestOps(n)[7..], 1)
      == (Step(TestMachine(n, false, false, None, 1.5,
      Runtime(true, 1.5, Never), Runtime(false, 0.0, At(1.0)), Runtime(true, 1.0, Never),
      [Call(n.first, 0.0, true), Call(n.second, 0.0, true), Call(n.third, 0.5, true), Call(n.third, 0.5, false), Call(n.second, 0.0, true), Call(n.third, 0.5, true), Call(n.third, 0.5, false), Call(n.first, 0.0, true)]), None),
      ExpectedSeen(n)[7..])
  {
    TestCall7(n);
    assert TestOps(n)[7] == ExecuteOp(1.5);
    assert ExpectedSeen(n)[7] == Seen(n.third, true);
    ReplayFrom8(n);
    ReplayCons(TestRegistry(n), TestBody(n),
      TestMachine(n, true, true, Some(n.third), 0.0,
      Runtime(true, 0.0, Never), Runtime(true, 0.0, At(1.0)), Runtime(true, 1.0, Never),
      [Call(n.first, 0.0, true), Call(n.second, 0.0, true), Call(n.third, 0.5, true)]),
      TestMachine(n, false, true, Some(n.third), 0.0,
      Runtime(true, 0.0, Never), Runtime(true, 0.0, At(1.0)), Runtime(true, 1.0, Never),
      [Call(n.first, 0.0, true), Call(n.second, 0.0, true), Call(n.third, 0.5, true), Call(n.third, 0.5, false)]),
      TestMachine(n, false, false, None, 1.5,
      Runtime(true, 1.5, Never), Runtime(false, 0.0, At(1.0)), Runtime(true, 1.0, Never),
      [Call(n.first, 0.0, true), Call(n.second, 0.0, true), Call(n.third, 0.5, true), Call(n.third, 0.5, false), Call(n.second, 0.0, true), Call(n.third, 0.5, true), Call(n.third, 0.5, false), Call(n.first, 0.0, true)]),
      TestOps(n), ExpectedSeen(n), 7);
  }

  /** The test's calls from call 6 on. */
  lemma ReplayFrom6(n: Names)
    requires Distinct(n)
    ensures RegistryOk(TestRegistry(n))
    ensures ValidMachine(TestRegistry(n), TestMachine(n, false, true, Some(n.third), 0.0,
      Runtime(true, 0.0, Never), Runtime(true, 0.0, At(1.0)), Runtime(true, 1.0, Never),
      [Call(n.first, 0.0, true), Call(n.second, 0.0, true), Call(n.third, 0.5, true)]))
    ensures Replay(TestRegistry(n), TestBody(n),
      TestMachine(n, false, true, Some(n.third), 0.0,
      Runtime(true, 0.0, Never), Runtime(true, 0.0, At(1.0)), Runtime(true, 1.0, Never),
      [Call(n.first, 0.0, true), Call(n.second, 0.0, true), Call(n.third, 0.5, true)]),
      TestOps(n)[6..], 1)
      == (Step(TestMachine(n, false, false, None, 1.5,
      Runtime(true, 1.5, Never), Runtime(false, 0.0, At(1.0)), Runtime(true, 1.0, Never),
      [Call(n.first, 0.0, true), Call(n.second, 0.0, true), Call(n.third, 0.5, true), Call(n.third, 0.5, false), Call(n.second, 0.0, true), Call(n.third, 0.5, true), Call(n.third, 0.5, false), Call(n.first, 0.0, true)]), None),
      ExpectedSeen(n)[6..])
  {
    TestCall6(n);
    assert TestOps(n)[6] == EngageOp(None, false);
    assert ExpectedSeen(n)[6] == Seen(n.third, true);
    ReplayFrom7(n);
    ReplayCons(TestRegistry(n), TestBody(n),
      TestMachine(n, false, true, Some(n.third), 0.0,
      Runtime(true, 0.0, Never), Runtime(true, 0.0, At(1.0)), Runtime(true, 1.0, Never),
      [Call(n.first, 0.0, true), Call(n.second, 0.0, true), Call(n.third, 0.5, true)]),
      TestMachine(n, true, true, Some(n.third), 0.0,
      Runtime(true, 0.0, Never), Runtime(true, 0.0, At(1.0)), Runtime(true, 1.0, Never),
      [Call(n.first, 0.0, true), Call(n.second, 0.0, true), Call(n.third, 0.5, true)]),
      TestMachine(n, false, false, None, 1.5,
      Runtime(true, 1.5, Never), Runtime(false, 0.0, At(1.0)), Runtime(true, 1.0, Never),
      [Call(n.first, 0.0, true), Call(n.second, 0.0, true), Call(n.third, 0.5, true), Call(n.third, 0.5, false), Call(n.second, 0.0, true), Call(n.third, 0.5, true), Call(n.third, 0.5, false), Call(n.first, 0.0, true)]),
      TestOps(n), ExpectedSeen(n), 6);
  }

  /** The test's calls from call 5 on. */
  lemma ReplayFrom5(n: Names)
    requires Distinct(n)
    ensures RegistryOk(TestRegistry(n))
    ensures ValidMachine(TestRegistry(n), TestMachine(n, true, true, Some(n.second), 0.0,
      Runtime(true, 0.0, Never), Runtime(true, 0.0, At(1.0)), Unrun,
      [Call(n.first, 0.0, true), Call(n.second, 0.0, true)]))
    ensures Replay(TestRegistry(n), TestBody(n),
      TestMachine(n, true, true, Some(n.second), 0.0,
      Runtime(true, 0.0, Never), Runtime(true, 0.0, At(1.0)), Unrun,
      [Call(n.first, 0.0, true), Call(n.second, 0.0, true)]),
      TestOps(n)[5..], 1)
      == (Step(TestMachine(n, false, false, None, 1.5,
      Runtime(true, 1.5, Never), Runtime(false, 0.0, At(1.0)), Runtime(true, 1.0, Never),
      [Call(n.first, 0.0, true), Call(n.second, 0.0, true), Call(n.third, 0.5, true), Call(n.third, 0.5, false), Call(n.second, 0.0, true), Call(n.third, 0.5, true), Call(n.third, 0.5, false), Call(n.first, 0.0, true)]), None),
      ExpectedSeen(n)[5..])
  {
    TestCall5(n);
    assert TestOps(n)[5] == ExecuteOp(1.5);
    assert ExpectedSeen(n)[5] == Seen(n.third, true);
    ReplayFrom6(n);
    ReplayCons(TestRegistry(n), TestBody(n),
      TestMachine(n, true, true, Some(n.second), 0.0,
      Runtime(true, 0.0, Never), Runtime(true, 0.0, At(1.0)), Unrun,
      [Call(n.first, 0.0, true), Call(n.second, 0.0, true)]),
      TestMachine(n, false, true, Some(n.third), 0.0,
      Runtime(true, 0.0, Never), Runtime(true, 0.0, At(1.0)), Runtime(true, 1.0, Never),
      [Call(n.first, 0.0, true), Call(n.second, 0.0, true), Call(n.third, 0.5, true)]),
      TestMachine(n, false, false, None, 1.5,
      Runtime(true, 1.5, Never), Runtime(false, 0.0, At(1.0)), Runtime(true, 1.0, Never),
      [Call(n.first, 0.0, true), Call(n.second, 0.0, true), Call(n.third, 0.5, true), Call(n.third, 0.5, false), Call(n.second, 0.0, true), Call(n.third, 0.5, true), Call(n.third, 0.5, false), Call(n.first, 0.0, true)]),
      TestOps(n), ExpectedSeen(n), 5);
  }

  /** The test's calls from call 4 on. */
  lemma ReplayFrom4(n: Names)
    requires Distinct(n)
    ensures RegistryOk(TestRegistry(n))
    ensures ValidMachine(TestRegistry(n), TestMachine(n, false, true, Some(n.second), 0.0,
      Runtime(true, 0.0, Never), Runtime(true, 0.0, At(1.0)), Unrun,
      [Call(n.first, 0.0, true), Call(n.second, 0.0, true)]))
    ensures Replay(TestRegistry(n), TestBody(n),
      TestMachine(n, false, true, Some(n.second), 0.0,
      Runtime(true, 0.0, Never), Runtime(true, 0.0, At(1.0)), Unrun,
      [Call(n.first, 0.0, true), Call(n.second, 0.0, true)]),
      TestOps(n)[4..], 1)
      == (Step(TestMachine(n, false, false, None, 1.5,
      Runtime(true, 1.5, Never), Runtime(false, 0.0, At(1.0)), Runtime(true, 1.0, Never),
      [Call(n.first, 0.0, true), Call(n.second, 0.0, true), Call(n.third, 0.5, true), Call(n.third, 0.5, false), Call(n.second, 0.0, true), Call(n.third, 0.5, true), Call(n.third, 0.5, false), Call(n.first, 0.0, true)]), None),
      ExpectedSeen(n)[4..])
  {
    TestCall4(n);
    assert TestOps(n)[4] == EngageOp(None, false);
    assert ExpectedSeen(n)[4] == Seen(n.second, true);
    ReplayFrom5(n);
    ReplayCons(TestRegistry(n), TestBody(n),
      TestMachine(n, false, true, Some(n.second), 0.0,
      Runtime(true, 0.0, Never), Runtime(true, 0.0, At(1.0)), Unrun,
      [Call(n.first, 0.0, true), Call(n.second, 0.0, true)]),
      TestMachine(n, true, true, Some(n.second), 0.0,
      Runtime(true, 0.0, Never), Runtime(true, 0.0, At(1.0)), Unrun,
      [Call(n.first, 0.0, true), Call(n.second, 0.0, true)]),
      TestMachine(n, false, false, None, 1.5,
      Runtime(true, 1.5, Never), Runtime(false, 0.0, At(1.0)), Runtime(true, 1.0, Never),
      [Call(n.first, 0.0, true), Call(n.second, 0.0, true), Call(n.third, 0.5, true), Call(n.third, 0.5, false), Call(n.second, 0.0, true), Call(n.third, 0.5, true), Call(n.third, 0.5, false), Call(n.first, 0.0, true)]),
      TestOps(n), ExpectedSeen(n), 4);
  }

  /** The test's calls from call 3 on. */
  lemma ReplayFrom3(n: Names)
    requires Distinct(n)
    ensures RegistryOk(TestRegistry(n))
    ensures ValidMachine(TestRegistry(n), TestMachine(n, true, true, Some(n.second), 0.0,
      Runtime(true, 0.0, Never), Unrun, Unrun,
      [Call(n.first, 0.0, true)]))
    ensures Replay(TestRegistry(n), TestBody(n),
      TestMachine(n, true, true, Some(n.second), 0.0,
      Runtime(true, 0.0, Never), Unrun, Unrun,
      [Call(n.first, 0.0, true)]),
      TestOps(n)[3..], 1)
      == (Step(TestMachine(n, false, false, None, 1.5,
      Runtime(true, 1.5, Never), Runtime(false, 0.0, At(1.0)), Runtime(true, 1.0, Never),
      [Call(n.first, 0.0, true), Call(n.second, 0.0, true), Call(n.third, 0.5, true), Call(n.third, 0.5, false), Call(n.second, 0.0, true), Call(n.third, 0.5, true), Call(n.third, 0.5, false), Call(n.first, 0.0, true)]), None),
      ExpectedSeen(n)[3..])
  {
    TestCall3(n);
    assert TestOps(n)[3] == ExecuteOp(0.0);
    assert ExpectedSeen(n)[3] == Seen(n.second, true);
    ReplayFrom4(n);
    ReplayCons(TestRegistry(n), TestBody(n),
      TestMachine(n, true, true, Some(n.second), 0.0,
      Runtime(true, 0.0, Never), Unrun, Unrun,
      [Call(n.first, 0.0, true)]),
      TestMachine(n, false, true, Some(n.second), 0.0,
      Runtime(true, 0.0, Never), Runtime(true, 0.0, At(1.0)), Unrun,
      [Call(n.first, 0.0, true), Call(n.second, 0.0, true)]),
      TestMachine(n, false, false, None, 1.5,
      Runtime(true, 1.5, Never), Runtime(false, 0.0, At(1.0)), Runtime(true, 1.0, Never),
      [Call(n.first, 0.0, true), Call(n.second, 0.0, true), Call(n.third, 0.5, true), Call(n.third, 0.5, false), Call(n.second, 0.0, true), Call(n.third, 0.5, true), Call(n.third, 0.5, false), Call(n.first, 0.0, true)]),
      TestOps(n), ExpectedSeen(n), 3);
  }

  /** The test's calls from call 2 on. */
  lemma ReplayFrom2(n: Names)
    requires Distinct(n)
    ensures RegistryOk(TestRegistry(n))
    ensures ValidMachine(TestRegistry(n), TestMachine(n, false, true, Some(n.second), 0.0,
      Runtime(true, 0.0, Never), Unrun, Unrun,
      [Call(n.first, 0.0, true)]))
    ensures Replay(TestRegistry(n), TestBody(n),
      TestMachine(n, false, true, Some(n.second), 0.0,
      Runtime(true, 0.0, Never), Unrun, Unrun,
      [Call(n.first, 0.0, true)]),
      TestOps(n)[2..], 1)
      == (Step(TestMachine(n, false, false, None, 1.5,
      Runtime(true, 1.5, Never), Runtime(false, 0.0, At(1.0)), Runtime(true, 1.0, Never),
      [Call(n.first, 0.0, true), Call(n.second, 0.0, true), Call(n.third, 0.5, true), Call(n.third, 0.5, false), Call(n.second, 0.0, true), Call(n.third, 0.5, true), Call(n.third, 0.5, false), Call(n.first, 0.0, true)]), None),
      ExpectedSeen(n)[2..])
  {
    TestCall2(n);
    assert TestOps(n)[2] == EngageOp(None, false);
    assert ExpectedSeen(n)[2] == Seen(n.second, true);
    ReplayFrom3(n);
    ReplayCons(TestRegistry(n), TestBody(n),
      TestMachine(n, false, true, Some(n.second), 0.0,
      Runtime(true, 0.0, Never), Unrun, Unrun,
      [Call(n.first, 0.0, true)]),
      TestMachine(n, true, true, Some(n.second), 0.0,
      Runtime(true, 0.0, Never), Unrun, Unrun,
      [Call(n.first, 0.0, true)]),
      TestMachine(n, false, false, None, 1.5,
      Runtime(true, 1.5, Never), Runtime(false, 0.0, At(1.0)), Runtime(true, 1.0, Never),
      [Call(n.first, 0.0, true), Call(n.second, 0.0, true), Call(n.third, 0.5, true), Call(n.third, 0.5, false), Call(n.second, 0.0, true), Call(n.third, 0.5, true), Call(n.third, 0.5, false), Call(n.first, 0.0, true)]),
      TestOps(n), ExpectedSeen(n), 2);
  }

  /** The test's calls from call 1 on. */
  lemma ReplayFrom1(n: Names)
    requires Distinct(n)
    ensures RegistryOk(TestRegistry(n))
    ensures ValidMachine(TestRegistry(n), TestMachine(n, true, false, Some(n.first), 0.0,
      Unrun, Unrun, Unrun,
      []))
    ensures Replay(TestRegistry(n), TestBody(n),
      TestMachine(n, true, false, Some(n.first), 0.0,
      Unrun, Unrun, Unrun,
      []),
      TestOps(n)[1..], 1)
      == (Step(TestMachine(n, false, false, None, 1.5,
      Runtime(true, 1.5, Never), Runtime(false, 0.0, At(1.0)), Runtime(true, 1.0, Never),
      [Call(n.first, 0.0, true), Call(n.second, 0.0, true), Call(n.third, 0.5, true), Call(n.third, 0.5, false), Call(n.second, 0.0, true), Call(n.third, 0.5, true), Call(n.third, 0.5, false), Call(n.first, 0.0, true)]), None),
      ExpectedSeen(n)[1..])
  {
    TestCall1(n);
    assert TestOps(n)[1] == ExecuteOp(0.0);
    assert ExpectedSeen(n)[1] == Seen(n.second, true);
    ReplayFrom2(n);
    ReplayCons(TestRegistry(n), TestBody(n),
      TestMachine(n, true, false, Some(n.first), 0.0,
      Unrun, Unrun, Unrun,
      []),
      TestMachine(n, false, true, Some(n.second), 0.0,
      Runtime(true, 0.0, Never), Unrun, Unrun,
      [Call(n.first, 0.0, true)]),
      TestMachine(n, false, false, None, 1.5,
      Runtime(true, 1.5, Never), Runtime(false, 0.0, At(1.0)), Runtime(true, 1.0, Never),
      [Call(n.first, 0.0, true), Call(n.second, 0.0, true), Call(n.third, 0.5, true), Call(n.third, 0.5, false), Call(n.second, 0.0, true), Call(n.third, 0.5, true), Call(n.third, 0.5, false), Call(n.first, 0.0, true)]),
      TestOps(n), ExpectedSeen(n), 1);
  }

  /** The test's calls from call 0 on. */
  lemma ReplayFrom0(n: Names)
    requires Distinct(n)
    ensures RegistryOk(TestRegistry(n))
    ensures ValidMachine(TestRegistry(n), TestMachine(n, false, false, None, 0.0,
      Unrun, Unrun, Unrun,
      []))
    ensures Replay(TestRegistry(n), TestBody(n),
      TestMachine(n, false, false, None, 0.0,
      Unrun, Unrun, Unrun,
      []),
      TestOps(n)[0..], 1)
      == (Step(TestMachine(n, false, false, None, 1.5,
      Runtime(true, 1.5, Never), Runtime(false, 0.0, At(1.0)), Runtime(true, 1.0, Never),
      [Call(n.first, 0.0, true), Call(n.second, 0.0, true), Call(n.third, 0.5, true), Call(n.third, 0.5, false), Call(n.second, 0.0, true), Call(n.third, 0.5, true), Call(n.third, 0.5, false), Call(n.first, 0.0, true)]), None),
      ExpectedSeen(n)[0..])
  {
    TestCall0(n);
    assert TestOps(n)[0] == EngageOp(None, false);
    assert ExpectedSeen(n)[0] == Seen(n.first, false);
    ReplayFrom1(n);
    ReplayCons(TestRegistry(n), TestBody(n),
      TestMachine(n, false, false, None, 0.0,
      Unrun, Unrun, Unrun,
      []),
      TestMachine(n, true, false, Some(n.first), 0.0,
      Unrun, Unrun, Unrun,
      []),
      TestMachine(n, false, false, None, 1.5,
      Runtime(true, 1.5, Never), Runtime(false, 0.0, At(1.0)), Runtime(true, 1.0, Never),
      [Call(n.first, 0.0, true), Call(n.second, 0.0, true), Call(n.third, 0.5, true), Call(n.third, 0.5, false), Call(n.second, 0.0, true), Call(n.third, 0.5, true), Call(n.third, 0.5, false), Call(n.first, 0.0, true)]),
      TestOps(n), ExpectedSeen(n), 0);
  }

  /** The three declarations build exactly the test's registry. */
  lemma TestRegistryBuilds(n: Names)
    requires Distinct(n)
    ensures RegistryOf(TestDecls(n)) == Success(TestRegistry(n))
  {
    var ds := TestDecls(n);
    var reg := TestRegistry(n);
    assert ds[..2][..1] == ds[..1];
    assert ds[..1][..0] == [];
    assert ds[..3] == ds;
    assert Scan(ds[..1]) == Success(Table(map[n.first := reg.states[n.first]], Some(n.first), None));
    assert Scan(ds[..2]) ==
      Success(Table(map[n.first := reg.states[n.first], n.second := reg.states[n.second]], Some(n.first), None));
  }

  /** The freshly built machine of the test registry. */
  lemma InitialIsTest(n: Names)
    requires Distinct(n)
    ensures Initial(TestRegistry(n)) ==
      TestMachine(n, false, false, None, 0.0,
      Unrun, Unrun, Unrun,
      [])
  {
    assert Initial(TestRegistry(n)).runtime == map[n.first := Unrun, n.second := Unrun, n.third := Unrun];
  }

  /**
   * TestStateMachine1 holds of the model for any three distinct state names:
   * the declarations build, and from the freshly built machine the test's
   * calls are seen to do what the test asserts, with the bodies running in
   * the order first, second, third, third, second, third, third, first.
   */
  lemma TestStateMachine1(n: Names)
    requires Distinct(n)
    ensures RegistryOf(TestDecls(n)) == Success(TestRegistry(n)) && RegistryOk(TestRegistry(n))
    ensures var r := Replay(TestRegistry(n), TestBody(n), Initial(TestRegistry(n)), TestOps(n), 1);
      && r.0.failure.None?
      && r.1 == ExpectedSeen(n)
      && r.0.after.calls == [
        Call(n.first, 0.0, true), Call(n.second, 0.0, true), Call(n.third, 0.5, true), Call(n.third, 0.5, false),
        Call(n.second, 0.0, true), Call(n.third, 0.5, true), Call(n.third, 0.5, false), Call(n.first, 0.0, true)]
  {
    TestRegistryBuilds(n);
    InitialIsTest(n);
    ReplayFrom0(n);
    assert TestOps(n)[0..] == TestOps(n) && ExpectedSeen(n)[0..] == ExpectedSeen(n);
  }

  /** NoTimedStateDuration: a @TimedState whose duration was left unset is rejected. */
  lemma TestNoTimedState()
    ensures RegistryOf([Decl("tmp", None, Some(TimedAnn(UnsetDuration, "", false, false)), false)])
      == Failure(InvalidDuration("tmp"))
  {
    var ds := [Decl("tmp", None, Some(TimedAnn(UnsetDuration, "", false, false)), false)];
    assert ds[..|ds| - 1] == [];
    assert Scan(ds[..|ds| - 1]) == Success(EmptyTable);
    assert Describe(ds[|ds| - 1]) == Failure(InvalidDuration("tmp"));
    assert Scan(ds) == Failure(InvalidDuration("tmp"));
  }

  /** NoStartState: a machine without states has no first state. */
  lemma TestNoStartState()
    ensures RegistryOf([]) == Failure(NoFirstState)
  {
  }

  /** MultipleFirstStates: two @State(first=true) methods are rejected. */
  lemma TestMultipleFirstStates()
    ensures RegistryOf([Decl("tmp1", Some(StateAnn(true, false)), None, false),
                        Decl("tmp2", Some(StateAnn(true, false)), None, false)])
      == Failure(MultipleFirstStates)
  {
    var ds := [Decl("tmp1", Some(StateAnn(true, false)), None, false),
               Decl("tmp2", Some(StateAnn(true, false)), None, false)];
    var s1 := StateInfo("tmp1", Forever, None, true, false, false);
    assert ds[..1][..0] == [];
    assert Scan(ds[..1]) == Success(Table(map["tmp1" := s1], Some("tmp1"), None));
    assert ds[..|ds| - 1] == ds[..1];
  }

  /** MultipleDefaultStates: two @DefaultState methods are rejected. */
  lemma TestMultipleDefaultStates()
    ensures RegistryOf([Decl("tmp1", Some(StateAnn(true, false)), None, false),
                        Decl("tmp2", None, None, true),
                        Decl("tmp3", None, None, true)])
      == Failure(MultipleDefaultStates)
  {
    var ds := [Decl("tmp1", Some(StateAnn(true, false)), None, false),
               Decl("tmp2", None, None, true),
               Decl("tmp3", None, None, true)];
    var s1 := StateInfo("tmp1", Forever, None, true, false, false);
    var s2 := StateInfo("tmp2", Forever, None, false, true, true);
    assert ds[..2][..1] == ds[..1] && ds[..1][..0] == [];
    assert Scan(ds[..1]) == Success(Table(map["tmp1" := s1], Some("tmp1"), None));
    assert Scan(ds[..2]) == Success(Table(map["tmp1" := s1, "tmp2" := s2], Some("tmp1"), Some("tmp2")));
    assert ds[..|ds| - 1] == ds[..2];
  }

  /** The test's own state names are distinct. */
  lemma TestNamesDistinct()
    ensures Distinct(TestNames)
  {
  }
}
