# magicbot state machines, modelled in Dafny

This project models the state-machine component of magicbot-java, a framework
for FRC robot code. A `StateMachine` subclass marks some of its methods as
states, using `@State`, `@TimedState` (with a duration and an optional next
state) or `@DefaultState`. The constructor checks these declarations and builds
a table of states. On every control-loop tick, `execute()` then does five
things in a fixed order:

1. expires a timed state, with drift compensation;
2. drops the current state when `engage()` was not called in this tick, unless
   the state is `mustFinish`;
3. falls back to the default state;
4. calls the state body, telling it whether this is its initial call;
5. clears the one-shot engage request.

`AutonomousStateMachine` adds a latch. It engages and executes the machine on
every autonomous period until the machine stops. After that it stays quiet
until the mode is enabled again.

The project has six files:

- `wrappers.dfy` (module `Wrappers`): `Option` and `Result`.
- `registry.dfy` (module `StateRegistry`):
  - the three `StateData` constructors (`Describe`);
  - the constructor's loop as a specification function (`Scan`, `RegistryOf`);
  - the loop itself as a method (`Build`);
  - the lemmas that characterise success and every error.
- `engine.dfy` (module `StateEngine`): the per-tick engine as functions over a
  `Machine` value. The functions are `engage`, `nextState`, `nextStateNow`,
  `done` and `execute`, with `execute` split into its steps `Begin`, `Expire`,
  `Retain`, `Dispatch` and `React`. The file also holds the lemmas for each rule
  of `execute`.
- `state_machine.dfy` (module `StateMachines`): class `StateMachine`.
  - Its fields are the component's mutable state, and its methods update them in
    place, as the Java does.
  - Each method is proved to leave the object exactly where the `StateEngine`
    function says, so the engine lemmas hold of the object.
- `autonomous.dfy` (module `Autonomous`):
  - the adapter's `onEnabled`, `onDisabled` and `autonomousPeriodic` as functions;
  - the lemmas about its latch;
  - `Ticks`, a sequence of periodic calls as the robot's scheduler makes them,
    which states what the latch does over many periods;
  - class `AutonomousStateMachine`, whose methods are proved to follow those
    functions.
- `scenario.dfy` (module `Scenarios`):
  - the unit test `testStateMachine1`, replayed call by call on the engine, for
    any three distinct state names;
  - the constructor-rejection tests.

Modelling conventions:

- **Time** is `real` seconds, passed in as `now`. `Double.MAX_VALUE` becomes
  `Duration.Forever` and `Deadline.Never`.
- **State bodies.** A state body is a function from (state name, state time,
  initial call) to the one thing it asks of the machine: nothing, `nextState(n)`,
  `nextStateNow(n)` or `done()`.
- **Exceptions.** A call that throws returns a `Step` that holds the error
  together with the state as it was when the exception left. Changes made
  before the throw are kept: for example, `engage` has already set the request
  when its `nextState` throws.
- **Body calls.** Every body call is recorded in a `calls` trace. This is a
  ghost field in the class. The trace lets the lemmas say which body ran, with
  which state time, and whether it was the initial call.

## Model

| member | source | states |
|---|---|---|
| StateRegistry.Describe | src/io/github/robotpy/magicbot/sm/StateMachine.java:96-135 | A method without state annotations is skipped. Having both @State and @TimedState is the "Cannot mark" error, and nothing else is. A timed state with a duration ≤ 0 is InvalidDuration, and nothing else is. A described state keeps the method name and is well shaped: a timed duration is positive, an empty nextState means none, and a default state is never first, always mustFinish and never times out. Its first and default flags are exactly those the annotations set. It copies the annotation's mustFinish. A timed state keeps its duration in seconds, and its next state is its nextState, or none when that is empty. A @State has no next state and lasts forever. |
| StateRegistry.Build | src/io/github/robotpy/magicbot/sm/StateMachine.java:159-250 | The constructor's loop over the declarations, with the first and default accumulators and the put into the table, returns exactly the registry or the error of RegistryOf. |
| StateRegistry.FailureSticks | src/io/github/robotpy/magicbot/sm/StateMachine.java:167-242 | Once a declaration throws, the construction fails with that error, whatever follows. |
| StateRegistry.ScanSucceeds | src/io/github/robotpy/magicbot/sm/StateMachine.java:209-239 | The loop gets through every declaration iff no method is rejected, at most one is first and at most one is default. When it does, it has a first state iff exactly one is marked, and likewise for the default. |
| StateRegistry.ScanFailureExplained | src/io/github/robotpy/magicbot/sm/StateMachine.java:209-239 | Every error the loop throws is justified. A named error points at a declaration with that name and that fault. MultipleFirstStates means two or more firsts, and MultipleDefaultStates two or more defaults. |
| StateRegistry.BuildSucceedsIff | src/io/github/robotpy/magicbot/sm/StateMachine.java:159-250 | Construction succeeds iff no method is rejected, exactly one state is first and at most one is default. |
| StateRegistry.BuildFailureExplained | src/io/github/robotpy/magicbot/sm/StateMachine.java:244-246 | Every constructor error is justified by the declarations, including NoFirstState, which means no state is marked first. |
| StateRegistry.InvalidDurationRejected | src/io/github/robotpy/magicbot/sm/StateMachine.java:111-114 | A timed state with duration ≤ 0 makes construction fail, with InvalidDuration of that state when nothing before it failed. |
| StateRegistry.ScanTableOk | src/io/github/robotpy/magicbot/sm/StateMachine.java:225-241 | The recorded first and default states are in the table, and every descriptor is well shaped. |
| StateRegistry.BuildOk | src/io/github/robotpy/magicbot/sm/StateMachine.java:244-249 | A constructed registry has its first state, its default state (if any) and only well-shaped descriptors. |
| StateRegistry.AddMatches | src/io/github/robotpy/magicbot/sm/StateMachine.java:241 | Putting a state under a fresh name keeps the table equal to the descriptors of the declarations so far. |
| StateRegistry.ScanMatches | src/io/github/robotpy/magicbot/sm/StateMachine.java:167-242 | With distinct names, the table holds exactly the annotated methods, each under its own name. |
| StateRegistry.BuildRoundTrip | src/io/github/robotpy/magicbot/sm/StateMachine.java:159-250 | With distinct names, a constructed registry is well formed: the keys are the state names, only the first state is first, and only the default is default. It reads back exactly the descriptor of every annotated method. |
| StateEngine.Initial | src/io/github/robotpy/magicbot/sm/StateMachine.java:139-153 | A fresh machine is not engaged, has no request and no current state, has every state unrun with an infinite deadline, and has made no body call. |
| StateEngine.ExpiryAfter | src/io/github/robotpy/magicbot/sm/StateMachine.java:416 | A state gets a deadline exactly when it is timed. The deadline is the start plus the duration, so a positive duration puts it after the start. |
| StateEngine.CurrentState | src/io/github/robotpy/magicbot/sm/StateMachine.java:263-265 | getCurrentState is the current state's name, or "" when there is none. |
| StateEngine.NextState | src/io/github/robotpy/magicbot/sm/StateMachine.java:308-316 | An unknown name throws, iff it is unknown, and changes nothing. Otherwise the named state becomes current with ran false, and every other field and every other state's data is unchanged. |
| StateEngine.Done | src/io/github/robotpy/magicbot/sm/StateMachine.java:333-341 | done leaves no current state and the machine not executing, and changes nothing else. |
| StateEngine.DoneIdempotent | src/io/github/robotpy/magicbot/sm/StateMachine.java:333-341 | done twice is done once. |
| StateEngine.Engage | src/io/github/robotpy/magicbot/sm/StateMachine.java:291-301 | engage always sets the request. It switches to initialState, or else to the first state, with ran false and other states untouched, iff force is set, no state is current, or the default state is current. Otherwise nothing but the request changes. An unknown initialState throws after the request is set. |
| StateEngine.Expire | src/io/github/robotpy/magicbot/sm/StateMachine.java:372-390 | The expiry check yields a valid selection and keeps the request, the run flag, the start and the trace. It throws only when the current state has expired and its successor is unknown, and the error is that successor's UnknownState. |
| StateEngine.Retain | src/io/github/robotpy/magicbot/sm/StateMachine.java:392-407 | The deactivation and default checks yield a valid selection, keep the new start time, and leave the request, the run flag, the start and the trace alone. |
| StateEngine.Finish | src/io/github/robotpy/magicbot/sm/StateMachine.java:430-431 | The end of a tick that did not throw clears the request and changes nothing else. A tick that threw is left as it was. |
| StateEngine.Select | src/io/github/robotpy/magicbot/sm/StateMachine.java:352-407 | Selecting the state to run starts the run if requested and yields a valid selection. The request and the trace are unchanged. |
| StateEngine.Execute | src/io/github/robotpy/magicbot/sm/StateMachine.java:350-432 | execute keeps the machine valid and only appends to the trace. After any execute that does not throw, the request is clear. An execute that is not engaged, not requested and has no default state changes nothing. |
| StateEngine.Enter | src/io/github/robotpy/magicbot/sm/StateMachine.java:410-424 | On its first dispatch a state gets ran true, startTime at the new start and expires at start plus duration. A state that already ran keeps its data. Other states are untouched, and the body call with its state time and initialCall is appended. |
| StateEngine.React | src/io/github/robotpy/magicbot/sm/StateMachine.java:424-431 | Acting on what the body asked for keeps the machine valid and extends the trace. When nothing throws, the request is cleared afterwards. |
| StateEngine.Dispatch | src/io/github/robotpy/magicbot/sm/StateMachine.java:410-431 | Dispatching a state makes at least one body call, and the first is the call on that state. |
| StateEngine.NextStateNow | src/io/github/robotpy/magicbot/sm/StateMachine.java:324-328 | nextStateNow to an unknown name throws and changes nothing. Otherwise it keeps the machine valid and extends the trace. |
| StateEngine.ExecuteSelectFails | src/io/github/robotpy/magicbot/sm/StateMachine.java:354-390 | A tick fails before calling any body only when the current state has expired and names an unknown successor. It then raises that successor's UnknownState and leaves the run started and the request as it was. |
| StateEngine.ExecuteSelectsNothing | src/io/github/robotpy/magicbot/sm/StateMachine.java:425-431 | A tick is left with no state to run only when there is no default state. It then calls no body, ends the run as done() does and clears the request. |
| StateEngine.ExecuteCalls | src/io/github/robotpy/magicbot/sm/StateMachine.java:409-424 | The first body call of such a tick is the call on the selected state. |
| StateEngine.ExecuteContinues | src/io/github/robotpy/magicbot/sm/StateMachine.java:409-431 | When that body asks for nothing, the state is left entered and the request cleared. |
| StateEngine.CurrentStateRuns | src/io/github/robotpy/magicbot/sm/StateMachine.java:374-424 | A state expires only after it has run and strictly after its deadline. So a current state that has not expired, and that is requested or mustFinish, runs again: with initialCall false and its own state time once it has run, otherwise entered with initialCall true and time 0. A timed state therefore always runs at least once. |
| StateEngine.ExpiredStateChains | src/io/github/robotpy/magicbot/sm/StateMachine.java:367-390 | Drift compensation: when a state with a successor expires, the successor runs in the same tick as an initial call. Its state time is measured from the old deadline (old start plus old duration), not from the tick. |
| StateEngine.ExpiredSuccessorEntered | src/io/github/robotpy/magicbot/sm/StateMachine.java:386-417 | When the successor of an expired state asks for nothing, it is left current. It starts at the old deadline, and its own deadline is counted from there. |
| StateEngine.ExpiredSelects | src/io/github/robotpy/magicbot/sm/StateMachine.java:374-396 | Such a tick selects the successor, unrun, with the old deadline as its start time. |
| StateEngine.ExpiredUnknownNextFails | src/io/github/robotpy/magicbot/sm/StateMachine.java:386-388 | A next state missing from the table is found out only on expiry, and execute then throws. |
| StateEngine.ExpiredLastStateWraps | src/io/github/robotpy/magicbot/sm/StateMachine.java:377-382 | A last state that expires while engage is still called wraps around: the first state runs as an initial call, timed from the old deadline. |
| StateEngine.ExpiredLastStateEnds | src/io/github/robotpy/magicbot/sm/StateMachine.java:383-385 | A last state that expires without engage, and with no default state, ends the run exactly as done() does. |
| StateEngine.ExpiredLastStateDefault | src/io/github/robotpy/magicbot/sm/StateMachine.java:374-407 | A last state that expires without engage hands over to the default state in the same tick. The default is entered afresh, and its state time counts from the old deadline, not from the tick. |
| StateEngine.UnengagedStateDropped | src/io/github/robotpy/magicbot/sm/StateMachine.java:392-396 | Without engage, a state that need not finish is dropped, and with no default state the run ends as done() does. |
| StateEngine.DefaultTakesOver | src/io/github/robotpy/magicbot/sm/StateMachine.java:398-407 | When nothing is left to run, the default state runs, and is entered afresh with initialCall true. |
| StateEngine.DefaultSelected | src/io/github/robotpy/magicbot/sm/StateMachine.java:398-407 | Such a tick makes the default current, with ran false. |
| StateEngine.DefaultContinues | src/io/github/robotpy/magicbot/sm/StateMachine.java:400-407 | While the default is current and has run, it runs every tick with initialCall false. |
| StateEngine.NextStateNowRunsTarget | src/io/github/robotpy/magicbot/sm/StateMachine.java:324-328 | nextStateNow runs its target within the same call, as an initial call with state time 0, when the run is engaged and the target is requested or mustFinish. |
| StateEngine.EngagedTickRuns | src/io/github/robotpy/magicbot/sm/StateMachine.java:374-431 | A tick with engage pending and a current state never drops it: a body runs, and the machine stops executing only if some body of this tick asked for done(). |
| StateEngine.EngagedSelectionRuns | src/io/github/robotpy/magicbot/sm/StateMachine.java:374-396 | With engage pending and a current state, the selection keeps a state and the run is started. |
| StateEngine.GoToNowKeepsStop | src/io/github/robotpy/magicbot/sm/StateMachine.java:324-328 | A run that stops inside a nextStateNow stops only because a body called in it asked for done(). |
| StateEngine.EngagedReactRuns | src/io/github/robotpy/magicbot/sm/StateMachine.java:424-431 | With engage pending, acting on a body's request ends the run only for done(), here or in a nested tick. |
| StateMachines.StateMachine.constructor | src/io/github/robotpy/magicbot/sm/StateMachine.java:139-153 | The fields start as in a fresh machine (Initial). |
| StateMachines.StateMachine.Create | src/io/github/robotpy/magicbot/sm/StateMachine.java:159-250 | Construction throws iff the declarations are rejected, with their error. Otherwise it yields a fresh machine over their registry, in the initial state. |
| StateMachines.StateMachine.IsExecuting | src/io/github/robotpy/magicbot/sm/StateMachine.java:256-258 | isExecuting reads the engaged flag. |
| StateMachines.StateMachine.CurrentState | src/io/github/robotpy/magicbot/sm/StateMachine.java:263-265 | getCurrentState agrees with StateEngine.CurrentState. |
| StateMachines.StateMachine.NextState | src/io/github/robotpy/magicbot/sm/StateMachine.java:308-316 | The fields end, and the error is, as StateEngine.NextState says. |
| StateMachines.StateMachine.Engage | src/io/github/robotpy/magicbot/sm/StateMachine.java:291-301 | The fields end, and the error is, as StateEngine.Engage says. |
| StateMachines.StateMachine.Done | src/io/github/robotpy/magicbot/sm/StateMachine.java:333-341 | The fields end as StateEngine.Done says. |
| StateMachines.StateMachine.OnDisabled | src/io/github/robotpy/magicbot/sm/StateMachine.java:271-273 | onDisabled is done(). |
| StateMachines.StateMachine.NextStateNow | src/io/github/robotpy/magicbot/sm/StateMachine.java:324-328 | The fields end, and the error is, as StateEngine.NextStateNow says. |
| StateMachines.StateMachine.Execute | src/io/github/robotpy/magicbot/sm/StateMachine.java:350-432 | The in-place tick ends, and throws, exactly as StateEngine.Execute says. |
| StateMachines.StateMachine.SelectState | src/io/github/robotpy/magicbot/sm/StateMachine.java:352-407 | The start of the run, the expiry check and the fallback, done in place, match StateEngine.Select. |
| StateMachines.StateMachine.CheckExpiry | src/io/github/robotpy/magicbot/sm/StateMachine.java:372-390 | The in-place expiry check matches StateEngine.Expire. |
| StateMachines.StateMachine.FallBack | src/io/github/robotpy/magicbot/sm/StateMachine.java:392-407 | The in-place deactivation and default fallback match StateEngine.Retain. |
| StateMachines.StateMachine.Dispatch | src/io/github/robotpy/magicbot/sm/StateMachine.java:409-431 | Entering, the body call and the reaction, in place, match StateEngine.Dispatch. |
| StateMachines.StateMachine.EnterState | src/io/github/robotpy/magicbot/sm/StateMachine.java:410-424 | The in-place entry matches StateEngine.Enter, and the arguments passed to the body are those of CallOn. |
| StateMachines.StateMachine.React | src/io/github/robotpy/magicbot/sm/StateMachine.java:424-431 | Acting on the body's request and clearing the request, in place, match StateEngine.React. |
| StateMachines.StateMachine.GoNow | src/io/github/robotpy/magicbot/sm/StateMachine.java:324-328 | A body's nextStateNow with fuel left is nextStateNow followed by clearing the request. Out of fuel, it throws and changes nothing. |
| Autonomous.Enable | src/io/github/robotpy/magicbot/sm/AutonomousStateMachine.java:33-38 | onEnabled sets the adapter's latch and verbose logging, and nothing else. |
| Autonomous.Disable | src/io/github/robotpy/magicbot/sm/StateMachine.java:271-273 | The inherited onDisabled is done() on the machine and leaves the latch alone. |
| Autonomous.Periodic | src/io/github/robotpy/magicbot/sm/AutonomousStateMachine.java:40-54 | While unlatched, a periodic call changes nothing. While latched, it is engage() then execute(), after which the latch is isExecuting() and the request is clear. If either call throws, the latch stays set. |
| Autonomous.EngageDefaultSucceeds | src/io/github/robotpy/magicbot/sm/StateMachine.java:279-301 | engage() with no initial state never throws and always leaves a current state: the first state when it switches, otherwise the current one. |
| Autonomous.LatchedTickRuns | src/io/github/robotpy/magicbot/sm/AutonomousStateMachine.java:49-53 | A latched periodic call always runs a body, since engage() comes first, and the latch falls only when a body of that call asked for done(). |
| Autonomous.QuietWhileUnlatched | src/io/github/robotpy/magicbot/sm/AutonomousStateMachine.java:49 | Any number of periodic calls while unlatched leave everything as it was. |
| Autonomous.RunsOncePerEnable | src/io/github/robotpy/magicbot/sm/AutonomousStateMachine.java:40-53 | Once a periodic call finds the machine stopped, every later periodic call is a no-op until the next onEnabled. |
| Autonomous.EnableRestarts | src/io/github/robotpy/magicbot/sm/AutonomousStateMachine.java:33-38 | After onEnabled, the next periodic call runs a body again. |
| Autonomous.AutonomousStateMachine.constructor | src/io/github/robotpy/magicbot/sm/AutonomousStateMachine.java:29-31 | The adapter starts unlatched, around the machine as it is. |
| Autonomous.AutonomousStateMachine.Create | src/io/github/robotpy/magicbot/sm/StateMachine.java:159-250 | The subclass constructor throws iff the declarations are rejected. Otherwise the adapter starts unlatched around an initial machine. |
| Autonomous.AutonomousStateMachine.OnEnabled | src/io/github/robotpy/magicbot/sm/AutonomousStateMachine.java:33-38 | In place, as Enable says. |
| Autonomous.AutonomousStateMachine.OnDisabled | src/io/github/robotpy/magicbot/sm/StateMachine.java:271-273 | In place, as Disable says. |
| Autonomous.AutonomousStateMachine.AutonomousPeriodic | src/io/github/robotpy/magicbot/sm/AutonomousStateMachine.java:40-54 | In place, as Periodic says, including the throwing cases. |
| Scenarios.TestStateMachine1 | test/io/github/robotpy/magicbot/sm/StateMachineTest.java:162-237 | For any three distinct names, the test's three declarations build its registry. From the fresh machine, the 18 calls at clock readings 0, 1.5 and 3 s never throw, and after each one getCurrentState and isExecuting are what the test asserts. The bodies run in the order 1, 2, 3, 3, 2, 3, 3, 1, with the state times and initialCall flags given. |
| Scenarios.TestRegistryBuilds | test/io/github/robotpy/magicbot/sm/StateMachineTest.java:133-160 | The declarations of TestStateMachine1 build exactly the registry the scenario uses. |
| Scenarios.TestCall0 | test/io/github/robotpy/magicbot/sm/StateMachineTest.java:173-175 | engage() on the fresh machine makes first_state current without executing. |
| Scenarios.TestCall1 | test/io/github/robotpy/magicbot/sm/StateMachineTest.java:177-179 | The first execute runs first_state, which moves to second_state; the machine is executing. |
| Scenarios.TestCall2 | test/io/github/robotpy/magicbot/sm/StateMachineTest.java:181-184 | engage() while second_state is current does not change it. |
| Scenarios.TestCall3 | test/io/github/robotpy/magicbot/sm/StateMachineTest.java:186-188 | execute at 0 s enters second_state, with deadline 1 s. |
| Scenarios.TestCall4 | test/io/github/robotpy/magicbot/sm/StateMachineTest.java:190-191 | engage() at 1.5 s changes nothing but the request. |
| Scenarios.TestCall5 | test/io/github/robotpy/magicbot/sm/StateMachineTest.java:192-194 | execute at 1.5 s expires second_state and enters third_state, starting at 1 s, with state time 0.5. |
| Scenarios.TestCall6 | test/io/github/robotpy/magicbot/sm/StateMachineTest.java:196 | engage() while third_state is current does not change it. |
| Scenarios.TestCall7 | test/io/github/robotpy/magicbot/sm/StateMachineTest.java:197-199 | execute runs third_state again, not as an initial call. |
| Scenarios.TestCall8 | test/io/github/robotpy/magicbot/sm/StateMachineTest.java:201-204 | done() clears the current state and stops execution. |
| Scenarios.TestCall9 | test/io/github/robotpy/magicbot/sm/StateMachineTest.java:206-207 | engage("second_state") makes second_state current, ready to start afresh. |
| Scenarios.TestCall10 | test/io/github/robotpy/magicbot/sm/StateMachineTest.java:208-210 | execute at 1.5 s starts a new run and enters second_state, with deadline 1 s after the run start. |
| Scenarios.TestCall11 | test/io/github/robotpy/magicbot/sm/StateMachineTest.java:212-213 | engage() at 3 s changes nothing but the request. |
| Scenarios.TestCall12 | test/io/github/robotpy/magicbot/sm/StateMachineTest.java:214-216 | execute at 3 s expires second_state and enters third_state. |
| Scenarios.TestCall13 | test/io/github/robotpy/magicbot/sm/StateMachineTest.java:219 | engage() without force keeps third_state. |
| Scenarios.TestCall14 | test/io/github/robotpy/magicbot/sm/StateMachineTest.java:220-222 | execute runs third_state again. |
| Scenarios.TestCall15 | test/io/github/robotpy/magicbot/sm/StateMachineTest.java:224-226 | engage(true) switches back to first_state while executing. |
| Scenarios.TestCall16 | test/io/github/robotpy/magicbot/sm/StateMachineTest.java:228 | execute runs first_state afresh, which moves to second_state. |
| Scenarios.TestCall17 | test/io/github/robotpy/magicbot/sm/StateMachineTest.java:229-231 | execute without engage drops second_state, which need not finish, and the run ends. |
| Scenarios.TestNoTimedState | test/io/github/robotpy/magicbot/sm/StateMachineTest.java:87-100 | A @TimedState with the unset duration of -1 is rejected with InvalidDuration. |
| Scenarios.TestNoStartState | test/io/github/robotpy/magicbot/sm/StateMachineTest.java:102-113 | A machine without states is rejected with NoFirstState. |
| Scenarios.TestMultipleFirstStates | test/io/github/robotpy/magicbot/sm/StateMachineTest.java:115-131 | Two first states are rejected with MultipleFirstStates. |
| Scenarios.TestMultipleDefaultStates | test/io/github/robotpy/magicbot/sm/StateMachineTest.java:361-380 | Two default states are rejected with MultipleDefaultStates. |

## Left out

- Reflection and MethodHandle arity adaptation in the constructor
  (StateMachine.java:166-206).
  - A machine is given as a sequence of declarations, and a body takes all
    three arguments.
  - The "invalid parameter type" error is not modelled.
  - The order of `getDeclaredMethods` only decides which error is reported
    first. The model takes the declarations in the order given.
- Duplicate method names (Java overloads). `put` overwrites, and the model does
  the same. The round-trip lemmas assume distinct names.
- The default state is compared by name. The Java compares by object identity.
  These agree when names are distinct.
- Verbose logging (`System.out.printf`). Only the `verbose` flag is kept.
- `java.time.Clock`. Each tick takes its clock reading as the parameter `now`.
  - A `nextStateNow` from inside a body re-reads the clock in the Java. The
    model reuses the reading of the outer tick, as a clock that does not advance
    during the tick would.
  - Seconds are `real`, not IEEE doubles, so there is no rounding.
  - `Double.MAX_VALUE` is the infinite duration and deadline.
- State bodies are functions of (name, state time, initial call) that make at
  most one of `nextState`, `nextStateNow` or `done()` as their last act.
  - Bodies with other side effects, or with several such calls, are not
    modelled.
  - A body that throws on its own is not modelled; a `nextState` to an unknown name from a body is.
  - The `executed` lists the tests keep become the `calls` trace.
  - The test's extra `some_fn()` entry is not a state call and is not part of
    the trace.
- Unbounded `nextStateNow` recursion, which overflows the stack in Java, is cut
  off by a `fuel` bound and reported as `RecursionLimit`. Executions that need
  more nested levels than the fuel allows are not modelled.
- `nextState` called from outside a tick, as in `testMustFinish`, is the class
  method `StateMachine.NextState`. Only `testStateMachine1` and the construction
  tests are replayed as scenarios. `testMustFinish` and `testDefaultStateSm`
  are covered by the general lemmas on mustFinish and default states, not call
  by call.
- The tests read a field `m_currentState` that `StateMachine` does not declare.
  The scenario uses `getCurrentState()` in its place.
- Inheritance is modelled as composition: `AutonomousStateMachine` holds the
  `StateMachine` it extends. Its `onEnabled` calls the empty default of
  `MagicComponent`, which is left out.
- `State.java`, `TimedState.java` and `DefaultState.java` are annotation
  declarations. Their defaults (first false, mustFinish false, duration -1,
  nextState "") are written into the declarations. `MagicRobot.java`, the
  injector and `PreciseDelay.java` are not part of this model.
