/**
 * The per-tick engine of StateMachine as functions over a snapshot of its
 * mutable state: engage, nextState, nextStateNow, done and execute. Each
 * function gives the state the engine is left in, together with the error a
 * call throws; Java exceptions keep what was changed before the throw.
 */
module StateEngine {
  import opened Wrappers
  import opened StateRegistry

  /** When a state expires; non-timed states never do (Double.MAX_VALUE). */
  datatype Deadline = Never | At(time: real)

  /** The per-state fields the engine updates: ran, startTime and expires. */
  datatype Runtime = Runtime(ran: bool, startTime: real, expires: Deadline)

  /** The field initializers of a state's data. */
  const Unrun: Runtime := Runtime(false, 0.0, Never)

  /** What a state body asks of the machine before returning. */
  datatype Action = Continue | GoTo(target: string) | GoToNow(target: string) | Stop

  /** A state body: state name, seconds since the state started, and whether this is its initial call. */
  type Body = (string, real, bool) -> Action

  /** One invocation of a state body. */
  datatype Call = Call(state: string, stateTime: real, initialCall: bool)

  /**
   * UnknownState is the "Invalid state" exception of nextState; RecursionLimit
   * stands for the stack overflow of unbounded nextStateNow chains.
   */
  datatype EngineError = UnknownState(name: string) | RecursionLimit

  /** Everything about a machine that its operations change, plus the body calls made so far. */
  datatype Machine = Machine(
    shouldEngage: bool,
    engaged: bool,
    current: Option<string>,
    start: real,
    verbose: bool,
    runtime: map<string, Runtime>,
    calls: seq<Call>)

  /** The machine after an operation, and the error the operation threw, if any. */
  datatype Step = Step(after: Machine, failure: Option<EngineError>)

  predicate ValidMachine(reg: Registry, m: Machine) {
    && m.runtime.Keys == reg.states.Keys
    && (m.current.Some? ==> m.current.value in reg.states)
    && forall k | k in m.runtime :: m.runtime[k].expires.At? ==>
         && reg.states[k].duration.Seconds?
         && m.runtime[k].expires.time == m.runtime[k].startTime + reg.states[k].duration.length
  }

  /** The state of a freshly constructed machine. */
  function Initial(reg: Registry): (m: Machine)
    ensures ValidMachine(reg, m)
    ensures !m.shouldEngage && !m.engaged && m.current.None? && m.calls == []
    ensures forall k | k in reg.states :: m.runtime[k] == Unrun
  {
    Machine(false, false, None, 0.0, false, map k | k in reg.states :: Unrun, [])
  }

  function ExpiryAfter(start: real, d: Duration): (r: Deadline)
    ensures r.At? <==> d.Seconds?
    ensures d.Seconds? ==> r == At(start + d.length)
    ensures d.Seconds? && d.length > 0.0 ==> r.time > start
  {
    match d
    case Forever => Never
    case Seconds(x) => At(start + x)
  }

  /** The expiry test of execute: only a state that has run expires, and only strictly after its deadline. */
  predicate Expired(rt: Runtime, tm: real) {
    rt.ran && rt.expires.At? && rt.expires.time < tm
  }

  /** The trace b continues the trace a. */
  predicate Extends(a: seq<Call>, b: seq<Call>) {
    |a| <= |b| && b[..|a|] == a
  }

  function IsExecuting(m: Machine): bool {
    m.engaged
  }

  function CurrentState(m: Machine): (r: string)
    ensures m.current.Some? ==> r == m.current.value
    ensures m.current.None? ==> r == ""
  {
    if m.current.None? then "" else m.current.value
  }

  /** nextState: the named state becomes current and will start afresh. */
  function NextState(reg: Registry, m: Machine, name: string): (r: Step)
    requires ValidMachine(reg, m)
    ensures ValidMachine(reg, r.after)
    ensures r.failure.Some? <==> name !in reg.states
    ensures name !in reg.states ==> r == Step(m, Some(UnknownState(name)))
    ensures name in reg.states ==>
      && r.after.current == Some(name)
      && r.after.runtime[name] == m.runtime[name].(ran := false)
      && (forall k | k in m.runtime && k != name :: r.after.runtime[k] == m.runtime[k])
      && r.after.(current := m.current, runtime := m.runtime) == m
  {
    if name !in reg.states then Step(m, Some(UnknownState(name)))
    else
      var rt := m.runtime[name];
      Step(m.(current := Some(name), runtime := m.runtime[name := rt.(ran := false)]), None)
  }

  /** done: no state is current and the machine no longer executes; nothing else changes. */
  function Done(m: Machine): (r: Machine)
    ensures r.current.None? && !r.engaged
    ensures r.(current := m.current, engaged := m.engaged) == m
  {
    m.(current := None, engaged := false)
  }

  /** Whether engage selects its entry point. */
  predicate Switches(reg: Registry, m: Machine, force: bool) {
    force || m.current.None? || m.current == reg.default
  }

  /** engage(initialState, force). */
  function Engage(reg: Registry, m: Machine, initial: Option<string>, force: bool): (r: Step)
    requires RegistryOk(reg) && ValidMachine(reg, m)
    ensures ValidMachine(reg, r.after)
    ensures r.after.shouldEngage
    ensures r.after.engaged == m.engaged && r.after.start == m.start && r.after.calls == m.calls
    ensures !Switches(reg, m, force) ==> r == Step(m.(shouldEngage := true), None)
    ensures Switches(reg, m, force) ==>
      var target := initial.GetOr(reg.first);
      && (target in reg.states ==>
            && r.failure.None?
            && r.after.current == Some(target)
            && !r.after.runtime[target].ran
            && forall k | k in m.runtime && k != target :: r.after.runtime[k] == m.runtime[k])
      && (target !in reg.states ==> r == Step(m.(shouldEngage := true), Some(UnknownState(target))))
  {
    var m1 := m.(shouldEngage := true);
    if Switches(reg, m, force) then NextState(reg, m1, initial.GetOr(reg.first))
    else Step(m1, None)
  }

  /** A tick that does nothing: not executing, not asked to, and no default state. */
  predicate Idle(reg: Registry, m: Machine) {
    !m.engaged && !m.shouldEngage && reg.default.None?
  }

  /** Step 1 of execute: a requested run starts now. */
  function Begin(m: Machine, now: real): Machine {
    if !m.engaged && m.shouldEngage then m.(start := now, engaged := true) else m
  }

  /** Seconds since the run started, as execute computes it. */
  function Elapsed(m: Machine, now: real): real {
    now - Begin(m, now).start
  }

  /** The state execute is about to run (the local "state"), and the start time it gets if entered. */
  datatype Selection = Selection(m: Machine, state: Option<string>, newStart: real)

  predicate ValidSelection(reg: Registry, sel: Selection) {
    ValidMachine(reg, sel.m) && (sel.state.Some? ==> sel.state.value in reg.states)
  }

  /** The expiry check of execute, with drift compensation. */
  function Expire(reg: Registry, m: Machine, tm: real): (r: Result<Selection, EngineError>)
    requires RegistryOk(reg) && ValidMachine(reg, m)
    ensures r.Success? ==> ValidSelection(reg, r.value) && r.value.m.shouldEngage == m.shouldEngage
    ensures r.Success? ==> r.value.m.engaged == m.engaged && r.value.m.start == m.start && r.value.m.calls == m.calls
    ensures r.Failure? ==>
      && m.current.Some? && Expired(m.runtime[m.current.value], tm)
      && reg.states[m.current.value].next.Some?
      && reg.states[m.current.value].next.value !in reg.states
      && r.error == UnknownState(reg.states[m.current.value].next.value)
  {
    if m.current.Some? && Expired(m.runtime[m.current.value], tm) then
      var c := m.current.value;
      var newStart := m.runtime[c].expires.time;
      match reg.states[c].next
      case None =>
        if m.shouldEngage then
          Success(Selection(NextState(reg, m, reg.first).after, Some(reg.first), newStart))
        else
          Success(Selection(m, None, newStart))
      case Some(n) =>
        var s := NextState(reg, m, n);
        if s.failure.Some? then Failure(s.failure.value)
        else Success(Selection(s.after, Some(n), newStart))
    else
      Success(Selection(m, m.current, tm))
  }

  /** The deactivation check and the default fallback of execute. */
  function Retain(reg: Registry, sel: Selection): (r: Selection)
    requires RegistryOk(reg) && ValidSelection(reg, sel)
    ensures ValidSelection(reg, r) && r.newStart == sel.newStart
    ensures r.m.shouldEngage == sel.m.shouldEngage && r.m.engaged == sel.m.engaged
    ensures r.m.start == sel.m.start && r.m.calls == sel.m.calls
  {
    var state :=
      if sel.state.Some? && !sel.m.shouldEngage && !reg.states[sel.state.value].mustFinish then None
      else sel.state;
    if state.None? && reg.default.Some? then
      var d := reg.default.value;
      var m :=
        if sel.m.current != reg.default then
          sel.m.(current := reg.default, runtime := sel.m.runtime[d := sel.m.runtime[d].(ran := false)])
        else sel.m;
      Selection(m, reg.default, sel.newStart)
    else
      Selection(sel.m, state, sel.newStart)
  }

  /** What execute does once a body returned without throwing: clear the engage latch. */
  function Finish(s: Step): (r: Step)
    ensures s.failure.Some? ==> r == s
    ensures s.failure.None? ==> r.failure.None? && !r.after.shouldEngage
    ensures r.after.(shouldEngage := s.after.shouldEngage) == s.after
  {
    if s.failure.Some? then s else Step(s.after.(shouldEngage := false), None)
  }

  /** The state one tick of execute selects after the expiry and deactivation checks. */
  function Select(reg: Registry, m: Machine, now: real): (r: Result<Selection, EngineError>)
    requires RegistryOk(reg) && ValidMachine(reg, m)
    ensures r.Success? ==> ValidSelection(reg, r.value)
    ensures r.Success? ==> r.value.m.shouldEngage == m.shouldEngage
    ensures r.Success? ==> r.value.m.engaged == Begin(m, now).engaged && r.value.m.start == Begin(m, now).start
    ensures r.Success? ==> r.value.m.calls == m.calls
  {
    match Expire(reg, Begin(m, now), Elapsed(m, now))
    case Failure(e) => Failure(e)
    case Success(sel) => Success(Retain(reg, sel))
  }

  /** execute(): one tick at clock reading now; fuel bounds the nextStateNow chains of this tick. */
  function Execute(reg: Registry, body: Body, m: Machine, now: real, fuel: nat): (r: Step)
    requires RegistryOk(reg) && ValidMachine(reg, m)
    ensures ValidMachine(reg, r.after)
    ensures Extends(m.calls, r.after.calls)
    ensures r.failure.None? ==> !r.after.shouldEngage
    ensures Idle(reg, m) ==> r == Step(m, None)
    decreases fuel, 2
  {
    if Idle(reg, m) then Step(m, None)
    else
      match Select(reg, m, now)
      case Failure(e) => Step(Begin(m, now), Some(e))
      case Success(sel) =>
        match sel.state
        case None => Step(Done(sel.m).(shouldEngage := false), None)
        case Some(c) => Dispatch(reg, body, sel.m, c, sel.newStart, Elapsed(m, now), now, fuel)
  }

  /** The call a dispatch makes on state c. */
  function CallOn(reg: Registry, m: Machine, c: string, newStart: real, tm: real): Call
    requires ValidMachine(reg, m) && c in reg.states
  {
    if m.runtime[c].ran then Call(c, tm - m.runtime[c].startTime, false)
    else Call(c, tm - newStart, true)
  }

  /** Entering state c on its first dispatch: ran, startTime and expires are set; the body call is recorded. */
  function Enter(reg: Registry, m: Machine, c: string, newStart: real, tm: real): (r: Machine)
    requires RegistryOk(reg) && ValidMachine(reg, m) && c in reg.states
    ensures ValidMachine(reg, r)
    ensures r.calls == m.calls + [CallOn(reg, m, c, newStart, tm)]
    ensures r.runtime[c].ran
    ensures !m.runtime[c].ran ==>
      r.runtime[c] == Runtime(true, newStart, ExpiryAfter(newStart, reg.states[c].duration))
    ensures m.runtime[c].ran ==> r.runtime[c] == m.runtime[c]
    ensures forall k | k in m.runtime && k != c :: r.runtime[k] == m.runtime[k]
    ensures r.(runtime := m.runtime, calls := m.calls) == m
  {
    var rt := m.runtime[c];
    var entered :=
      if rt.ran then rt else Runtime(true, newStart, ExpiryAfter(newStart, reg.states[c].duration));
    m.(runtime := m.runtime[c := entered], calls := m.calls + [CallOn(reg, m, c, newStart, tm)])
  }

  lemma ExtendsTrans(a: seq<Call>, b: seq<Call>, c: seq<Call>)
    requires Extends(a, b) && Extends(b, c)
    ensures Extends(a, c)
  {
    assert c[..|a|] == c[..|b|][..|a|];
  }

  /** What execute does with the action a body returned. */
  function React(reg: Registry, body: Body, m: Machine, a: Action, now: real, fuel: nat): (r: Step)
    requires RegistryOk(reg) && ValidMachine(reg, m)
    ensures ValidMachine(reg, r.after)
    ensures Extends(m.calls, r.after.calls)
    ensures r.failure.None? ==> !r.after.shouldEngage
    decreases fuel, 0
  {
    match a
    case Continue => Step(m.(shouldEngage := false), None)
    case Stop => Step(Done(m).(shouldEngage := false), None)
    case GoTo(n) => Finish(NextState(reg, m, n))
    case GoToNow(n) =>
      if fuel == 0 then Step(m, Some(RecursionLimit))
      else Finish(NextStateNow(reg, body, m, n, now, fuel - 1))
  }

  /** The dispatch step of execute: enter the state if it has not run, call its body, act on the result. */
  function Dispatch(reg: Registry, body: Body, m: Machine, c: string, newStart: real, tm: real, now: real, fuel: nat): (r: Step)
    requires RegistryOk(reg) && ValidMachine(reg, m) && c in reg.states
    ensures ValidMachine(reg, r.after)
    ensures |r.after.calls| > |m.calls| && Extends(m.calls, r.after.calls)
    ensures r.after.calls[|m.calls|] == CallOn(reg, m, c, newStart, tm)
    ensures r.failure.None? ==> !r.after.shouldEngage
    decreases fuel, 1
  {
    var call := CallOn(reg, m, c, newStart, tm);
    var m2 := Enter(reg, m, c, newStart, tm);
    var r := React(reg, body, m2, body(c, call.stateTime, call.initialCall), now, fuel);
    assert r.after.calls[..|m2.calls|] == m2.calls;
    assert r.after.calls[|m.calls|] == m2.calls[|m.calls|];
    assert m2.calls[..|m.calls|] == m.calls;
    ExtendsTrans(m.calls, m2.calls, r.after.calls);
    r
  }

  /** nextStateNow: nextState, then run the machine again within the same tick. */
  function NextStateNow(reg: Registry, body: Body, m: Machine, name: string, now: real, fuel: nat): (r: Step)
    requires RegistryOk(reg) && ValidMachine(reg, m)
    ensures ValidMachine(reg, r.after)
    ensures Extends(m.calls, r.after.calls)
    ensures name !in reg.states ==> r == Step(m, Some(UnknownState(name)))
    decreases fuel, 3
  {
    var s := NextState(reg, m, name);
    if s.failure.Some? then s else Execute(reg, body, s.after, now, fuel)
  }

  /**
   * Step r, taken from machine m, ran a state body, and if it left the
   * machine no longer executing, some body it called asked for done().
   */
  predicate RanUntilStop(body: Body, m: Machine, r: Step) {
    r.failure.None? ==>
      && |r.after.calls| > |m.calls|
      && (!r.after.engaged ==> StopRequested(body, r.after.calls, |m.calls|))
  }

  /** Some body call made at or after position from asked the machine to stop (called done()). */
  predicate StopRequested(body: Body, calls: seq<Call>, from: nat) {
    exists i | from <= i < |calls| :: body(calls[i].state, calls[i].stateTime, calls[i].initialCall) == Stop
  }

  lemma DoneIdempotent(m: Machine)
    ensures Done(Done(m)) == Done(m)
  {
  }

  /** Dispatch, unfolded down to the body call. */
  lemma DispatchReacts(reg: Registry, body: Body, m: Machine, c: string, newStart: real, tm: real, now: real, fuel: nat)
    requires RegistryOk(reg) && ValidMachine(reg, m) && c in reg.states
    ensures var call := CallOn(reg, m, c, newStart, tm);
      Dispatch(reg, body, m, c, newStart, tm, now, fuel) ==
        React(reg, body, Enter(reg, m, c, newStart, tm), body(c, call.stateTime, call.initialCall), now, fuel)
  {
  }

  /**
   * A tick fails before any body runs only when the current state has expired
   * and names a successor the registry does not know; the run is left started
   * and the error is that successor's UnknownState.
   */
  lemma ExecuteSelectFails(reg: Registry, body: Body, m: Machine, now: real, fuel: nat, e: EngineError)
    requires RegistryOk(reg) && ValidMachine(reg, m) && !Idle(reg, m)
    requires Select(reg, m, now) == Failure(e)
    ensures Execute(reg, body, m, now, fuel) == Step(Begin(m, now), Some(e))
    ensures m.current.Some? && Expired(m.runtime[m.current.value], Elapsed(m, now))
    ensures var next := reg.states[m.current.value].next;
      next.Some? && next.value !in reg.states && e == UnknownState(next.value)
  {
  }

  /**
   * A tick that selects no state happens only without a default state; it
   * calls no body and ends the run.
   */
  lemma ExecuteSelectsNothing(reg: Registry, body: Body, m: Machine, now: real, fuel: nat, sel: Selection)
    requires RegistryOk(reg) && ValidMachine(reg, m) && !Idle(reg, m)
    requires Select(reg, m, now) == Success(sel) && sel.state.None?
    ensures Execute(reg, body, m, now, fuel) == Step(Done(sel.m).(shouldEngage := false), None)
    ensures reg.default.None?
    ensures var r := Execute(reg, body, m, now, fuel);
      r.after.current.None? && !r.after.engaged && r.after.calls == m.calls
  {
  }

  /** A tick that selects a state dispatches it. */
  lemma ExecuteSelected(reg: Registry, body: Body, m: Machine, now: real, fuel: nat, sel: Selection)
    requires RegistryOk(reg) && ValidMachine(reg, m) && !Idle(reg, m)
    requires Select(reg, m, now) == Success(sel) && sel.state.Some?
    ensures Execute(reg, body, m, now, fuel) ==
      Dispatch(reg, body, sel.m, sel.state.value, sel.newStart, Elapsed(m, now), now, fuel)
  {
  }

  /** Execute, unfolded down to the body call when a state is selected. */
  lemma ExecuteDispatches(reg: Registry, body: Body, m: Machine, now: real, fuel: nat, sel: Selection)
    requires RegistryOk(reg) && ValidMachine(reg, m) && !Idle(reg, m)
    requires Select(reg, m, now) == Success(sel) && sel.state.Some?
    ensures var tm := Elapsed(m, now);
      var c := sel.state.value;
      var call := CallOn(reg, sel.m, c, sel.newStart, tm);
      Execute(reg, body, m, now, fuel) ==
        React(reg, body, Enter(reg, sel.m, c, sel.newStart, tm), body(c, call.stateTime, call.initialCall), now, fuel)
  {
    ExecuteSelected(reg, body, m, now, fuel, sel);
  }

  /** The first body call of a tick that selects a state is the call on that state. */
  lemma ExecuteCalls(reg: Registry, body: Body, m: Machine, now: real, fuel: nat, sel: Selection)
    requires RegistryOk(reg) && ValidMachine(reg, m) && !Idle(reg, m)
    requires Select(reg, m, now) == Success(sel) && sel.state.Some?
    ensures var r := Execute(reg, body, m, now, fuel);
      && |r.after.calls| > |m.calls|
      && r.after.calls[|m.calls|] == CallOn(reg, sel.m, sel.state.value, sel.newStart, Elapsed(m, now))
  {
    ExecuteSelected(reg, body, m, now, fuel, sel);
  }

  /** A tick whose selected state's body asks for nothing leaves the state entered and the latch cleared. */
  lemma ExecuteContinues(reg: Registry, body: Body, m: Machine, now: real, fuel: nat, sel: Selection)
    requires RegistryOk(reg) && ValidMachine(reg, m) && !Idle(reg, m)
    requires Select(reg, m, now) == Success(sel) && sel.state.Some?
    requires var call := CallOn(reg, sel.m, sel.state.value, sel.newStart, Elapsed(m, now));
      body(sel.state.value, call.stateTime, call.initialCall) == Continue
    ensures Execute(reg, body, m, now, fuel) ==
      Step(Enter(reg, sel.m, sel.state.value, sel.newStart, Elapsed(m, now)).(shouldEngage := false), None)
  {
    ExecuteDispatches(reg, body, m, now, fuel, sel);
  }

  /** nextStateNow to a known state is execute on the machine nextState leaves. */
  lemma NextStateNowExecutes(reg: Registry, body: Body, m: Machine, name: string, now: real, fuel: nat)
    requires RegistryOk(reg) && ValidMachine(reg, m) && name in reg.states
    ensures NextStateNow(reg, body, m, name, now, fuel) == Execute(reg, body, NextState(reg, m, name).after, now, fuel)
  {
  }

  /**
   * A current state that has not expired, and is either engaged or mustFinish,
   * is dispatched again: with initialCall false once it has run, and otherwise
   * entered with initialCall true and a state time of zero, so a timed state
   * always runs at least once.
   */
  lemma CurrentStateRuns(reg: Registry, body: Body, m: Machine, now: real, fuel: nat, c: string)
    requires RegistryOk(reg) && ValidMachine(reg, m) && !Idle(reg, m)
    requires m.current == Some(c)
    requires !Expired(m.runtime[c], Elapsed(m, now))
    requires m.shouldEngage || reg.states[c].mustFinish
    ensures var r := Execute(reg, body, m, now, fuel);
      && |r.after.calls| > |m.calls|
      && r.after.calls[|m.calls|] ==
           if m.runtime[c].ran then Call(c, Elapsed(m, now) - m.runtime[c].startTime, false)
           else Call(c, 0.0, true)
  {
    var m1 := Begin(m, now);
    var tm := now - m1.start;
    var sel := Selection(m1, Some(c), tm);
    assert Expire(reg, m1, tm) == Success(sel);
    assert Retain(reg, sel) == sel;
    assert Select(reg, m, now) == Success(sel);
    ExecuteCalls(reg, body, m, now, fuel, sel);
  }

  /**
   * Drift compensation: when a state with a successor expires, the successor
   * is entered in the same tick with its start time set to the old deadline
   * (the old start time plus the old duration), not to the tick's time.
   */
  lemma ExpiredStateChains(reg: Registry, body: Body, m: Machine, now: real, fuel: nat, c: string, n: string)
    requires RegistryOk(reg) && ValidMachine(reg, m) && !Idle(reg, m)
    requires m.current == Some(c) && Expired(m.runtime[c], Elapsed(m, now))
    requires reg.states[c].next == Some(n) && n in reg.states
    requires m.shouldEngage || reg.states[n].mustFinish
    ensures var r := Execute(reg, body, m, now, fuel);
      var x := m.runtime[c].startTime + reg.states[c].duration.length;
      && x == m.runtime[c].expires.time
      && |r.after.calls| > |m.calls|
      && r.after.calls[|m.calls|] == Call(n, Elapsed(m, now) - x, true)
  {
    var tm := Elapsed(m, now);
    var x := m.runtime[c].expires.time;
    var s := NextState(reg, Begin(m, now), n);
    ExpiredSelects(reg, m, now, c, n);
    ExecuteCalls(reg, body, m, now, fuel, Selection(s.after, Some(n), x));
    assert CallOn(reg, s.after, n, x, tm) == Call(n, tm - x, true);
  }

  /**
   * The successor of an expired state is left current, with its start time
   * at the old deadline x and its own deadline counted from x, when its body
   * asks for nothing more.
   */
  lemma ExpiredSuccessorEntered(reg: Registry, body: Body, m: Machine, now: real, fuel: nat, c: string, n: string)
    requires RegistryOk(reg) && ValidMachine(reg, m) && !Idle(reg, m)
    requires m.current == Some(c) && Expired(m.runtime[c], Elapsed(m, now))
    requires reg.states[c].next == Some(n) && n in reg.states
    requires m.shouldEngage || reg.states[n].mustFinish
    requires body(n, Elapsed(m, now) - m.runtime[c].expires.time, true) == Continue
    ensures var r := Execute(reg, body, m, now, fuel);
      var x := m.runtime[c].expires.time;
      && r.failure.None?
      && r.after.current == Some(n)
      && r.after.runtime[n] == Runtime(true, x, ExpiryAfter(x, reg.states[n].duration))
  {
    var tm := Elapsed(m, now);
    var x := m.runtime[c].expires.time;
    var s := NextState(reg, Begin(m, now), n);
    var sel := Selection(s.after, Some(n), x);
    ExpiredSelects(reg, m, now, c, n);
    assert CallOn(reg, s.after, n, x, tm) == Call(n, tm - x, true);
    ExecuteContinues(reg, body, m, now, fuel, sel);
    var m2 := Enter(reg, s.after, n, x, tm);
    assert m2.current == s.after.current == Some(n);
    assert m2.runtime[n] == Runtime(true, x, ExpiryAfter(x, reg.states[n].duration));
  }

  /** The selection of a tick in which the current state expires and has a known successor. */
  lemma ExpiredSelects(reg: Registry, m: Machine, now: real, c: string, n: string)
    requires RegistryOk(reg) && ValidMachine(reg, m) && !Idle(reg, m)
    requires m.current == Some(c) && Expired(m.runtime[c], Elapsed(m, now))
    requires reg.states[c].next == Some(n) && n in reg.states
    requires m.shouldEngage || reg.states[n].mustFinish
    ensures var s := NextState(reg, Begin(m, now), n);
      && !s.after.runtime[n].ran
      && Select(reg, m, now) == Success(Selection(s.after, Some(n), m.runtime[c].expires.time))
  {
    var m1 := Begin(m, now);
    var sel := Selection(NextState(reg, m1, n).after, Some(n), m.runtime[c].expires.time);
    assert Expire(reg, m1, Elapsed(m, now)) == Success(sel);
    assert Retain(reg, sel) == sel;
  }

  /** A successor that is not in the registry is only found out when the state expires, and execute throws. */
  lemma ExpiredUnknownNextFails(reg: Registry, body: Body, m: Machine, now: real, fuel: nat, c: string, n: string)
    requires RegistryOk(reg) && ValidMachine(reg, m) && !Idle(reg, m)
    requires m.current == Some(c) && Expired(m.runtime[c], Elapsed(m, now))
    requires reg.states[c].next == Some(n) && n !in reg.states
    ensures Execute(reg, body, m, now, fuel) == Step(Begin(m, now), Some(UnknownState(n)))
  {
  }

  /** A last state that expires while engage is still being called wraps around to the first state. */
  lemma ExpiredLastStateWraps(reg: Registry, body: Body, m: Machine, now: real, fuel: nat, c: string)
    requires RegistryOk(reg) && ValidMachine(reg, m)
    requires m.shouldEngage
    requires m.current == Some(c) && Expired(m.runtime[c], Elapsed(m, now))
    requires reg.states[c].next.None?
    ensures var r := Execute(reg, body, m, now, fuel);
      && |r.after.calls| > |m.calls|
      && r.after.calls[|m.calls|] == Call(reg.first, Elapsed(m, now) - m.runtime[c].expires.time, true)
  {
    var m1 := Begin(m, now);
    var tm := now - m1.start;
    var x := m.runtime[c].expires.time;
    var s := NextState(reg, m1, reg.first);
    assert Expire(reg, m1, tm) == Success(Selection(s.after, Some(reg.first), x));
    assert Retain(reg, Selection(s.after, Some(reg.first), x)) == Selection(s.after, Some(reg.first), x);
  }

  /** A last state that expires without engage ends the run when there is no default state. */
  lemma ExpiredLastStateEnds(reg: Registry, body: Body, m: Machine, now: real, fuel: nat, c: string)
    requires RegistryOk(reg) && ValidMachine(reg, m)
    requires m.engaged && !m.shouldEngage && reg.default.None?
    requires m.current == Some(c) && Expired(m.runtime[c], Elapsed(m, now))
    requires reg.states[c].next.None?
    ensures Execute(reg, body, m, now, fuel) == Step(Done(m), None)
  {
    var x := m.runtime[c].expires.time;
    assert Expire(reg, m, now - m.start) == Success(Selection(m, None, x));
  }

  /**
   * A last state that expires without engage hands over to the default state
   * in the same tick; the default is entered afresh, and drift compensation
   * counts its state time from the old deadline, not from the tick.
   */
  lemma ExpiredLastStateDefault(reg: Registry, body: Body, m: Machine, now: real, fuel: nat, c: string, d: string)
    requires WellFormed(reg) && ValidMachine(reg, m)
    requires !m.shouldEngage && reg.default == Some(d)
    requires m.current == Some(c) && Expired(m.runtime[c], Elapsed(m, now))
    requires reg.states[c].next.None?
    ensures var r := Execute(reg, body, m, now, fuel);
      && |r.after.calls| > |m.calls|
      && r.after.calls[|m.calls|] == Call(d, Elapsed(m, now) - m.runtime[c].expires.time, true)
  {
    var tm := Elapsed(m, now);
    var x := m.runtime[c].expires.time;
    assert WellShaped(reg.states[d]) && c != d;
    var m2 := m.(current := Some(d), runtime := m.runtime[d := m.runtime[d].(ran := false)]);
    assert Expire(reg, m, tm) == Success(Selection(m, None, x));
    assert Retain(reg, Selection(m, None, x)) == Selection(m2, Some(d), x);
    ExecuteCalls(reg, body, m, now, fuel, Selection(m2, Some(d), x));
  }

  /** Without engage, a state that need not finish is dropped, and with no default state the run ends. */
  lemma UnengagedStateDropped(reg: Registry, body: Body, m: Machine, now: real, fuel: nat, c: string)
    requires RegistryOk(reg) && ValidMachine(reg, m)
    requires m.engaged && !m.shouldEngage && reg.default.None?
    requires m.current == Some(c) && !Expired(m.runtime[c], Elapsed(m, now))
    requires !reg.states[c].mustFinish
    ensures Execute(reg, body, m, now, fuel) == Step(Done(m), None)
  {
    var tm := now - m.start;
    assert Expire(reg, m, tm) == Success(Selection(m, Some(c), tm));
  }

  /**
   * When no state is left to run, the default state takes over, and it is
   * entered afresh (initialCall true) because it was not the current state.
   */
  lemma DefaultTakesOver(reg: Registry, body: Body, m: Machine, now: real, fuel: nat, d: string)
    requires WellFormed(reg) && ValidMachine(reg, m)
    requires reg.default == Some(d)
    requires m.current.None? ||
      (!m.shouldEngage && !reg.states[m.current.value].mustFinish
       && !Expired(m.runtime[m.current.value], Elapsed(m, now)))
    ensures var r := Execute(reg, body, m, now, fuel);
      && |r.after.calls| > |m.calls|
      && r.after.calls[|m.calls|] == Call(d, 0.0, true)
  {
    var m1 := Begin(m, now);
    var tm := Elapsed(m, now);
    var m2 := m1.(current := Some(d), runtime := m1.runtime[d := m1.runtime[d].(ran := false)]);
    DefaultSelected(reg, m, now, d);
    ExecuteCalls(reg, body, m, now, fuel, Selection(m2, Some(d), tm));
  }

  /** The selection of a tick that falls back to the default state. */
  lemma DefaultSelected(reg: Registry, m: Machine, now: real, d: string)
    requires WellFormed(reg) && ValidMachine(reg, m)
    requires reg.default == Some(d)
    requires m.current.None? ||
      (!m.shouldEngage && !reg.states[m.current.value].mustFinish
       && !Expired(m.runtime[m.current.value], Elapsed(m, now)))
    ensures var m1 := Begin(m, now);
      Select(reg, m, now) ==
        Success(Selection(m1.(current := Some(d), runtime := m1.runtime[d := m1.runtime[d].(ran := false)]), Some(d), Elapsed(m, now)))
  {
    var m1 := Begin(m, now);
    var tm := Elapsed(m, now);
    assert Expire(reg, m1, tm) == Success(Selection(m1, m.current, tm));
    var m2 := m1.(current := Some(d), runtime := m1.runtime[d := m1.runtime[d].(ran := false)]);
    assert Retain(reg, Selection(m1, m.current, tm)) == Selection(m2, Some(d), tm);
  }

  /** While the default state stays current it runs every tick with initialCall false. */
  lemma DefaultContinues(reg: Registry, body: Body, m: Machine, now: real, fuel: nat, d: string)
    requires WellFormed(reg) && ValidMachine(reg, m)
    requires reg.default == Some(d) && m.current == Some(d) && m.runtime[d].ran
    ensures var r := Execute(reg, body, m, now, fuel);
      && |r.after.calls| > |m.calls|
      && r.after.calls[|m.calls|] == Call(d, Elapsed(m, now) - m.runtime[d].startTime, false)
  {
    assert WellShaped(reg.states[d]);
    CurrentStateRuns(reg, body, m, now, fuel, d);
  }

  /** nextStateNow runs its target within the same tick, as a fresh entry, when the run is engaged. */
  lemma NextStateNowRunsTarget(reg: Registry, body: Body, m: Machine, name: string, now: real, fuel: nat)
    requires RegistryOk(reg) && ValidMachine(reg, m)
    requires m.engaged && name in reg.states
    requires m.shouldEngage || reg.states[name].mustFinish
    ensures var r := NextStateNow(reg, body, m, name, now, fuel);
      && |r.after.calls| > |m.calls|
      && r.after.calls[|m.calls|] == Call(name, 0.0, true)
  {
    var s := NextState(reg, m, name);
    CurrentStateRuns(reg, body, s.after, now, fuel, name);
  }

  /**
   * A tick made with engage pending never drops a state: some state body runs,
   * and the machine stops executing only if a body asked for done().
   */
  lemma {:induction false} EngagedTickRuns(reg: Registry, body: Body, m: Machine, now: real, fuel: nat)
    requires RegistryOk(reg) && ValidMachine(reg, m)
    requires m.shouldEngage && m.current.Some?
    ensures RanUntilStop(body, m, Execute(reg, body, m, now, fuel))
    decreases fuel, 2
  {
    var r := Execute(reg, body, m, now, fuel);
    var e := Select(reg, m, now);
    if e.Success? {
      var sel := e.value;
      EngagedSelectionRuns(reg, m, now);
      var c := sel.state.value;
      var tm := Elapsed(m, now);
      var call := CallOn(reg, sel.m, c, sel.newStart, tm);
      var m2 := Enter(reg, sel.m, c, sel.newStart, tm);
      var a := body(c, call.stateTime, call.initialCall);
      ExecuteDispatches(reg, body, m, now, fuel, sel);
      EngagedReactRuns(reg, body, m2, a, now, fuel);
      if r.failure.None? && !r.after.engaged && a == Stop {
        assert r.after.calls[..|m2.calls|] == m2.calls;
        StopFound(body, r.after.calls, |m.calls|, |m.calls|);
      } else if r.failure.None? && !r.after.engaged {
        StopLater(body, r.after.calls, |m.calls|, |m2.calls|);
      }
    }
  }

  /** With engage pending and a current state, the selection keeps a state and is engaged. */
  lemma EngagedSelectionRuns(reg: Registry, m: Machine, now: real)
    requires RegistryOk(reg) && ValidMachine(reg, m)
    requires m.shouldEngage && m.current.Some?
    ensures var e := Select(reg, m, now);
      e.Success? ==> e.value.state.Some? && e.value.m.shouldEngage && e.value.m.engaged
  {
    var e := Expire(reg, Begin(m, now), Elapsed(m, now));
    if e.Success? {
      assert e.value.state.Some?;
      assert Retain(reg, e.value) == e.value;
    }
  }

  lemma StopFound(body: Body, calls: seq<Call>, from: nat, i: nat)
    requires from <= i < |calls|
    requires body(calls[i].state, calls[i].stateTime, calls[i].initialCall) == Stop
    ensures StopRequested(body, calls, from)
  {
  }

  lemma StopLater(body: Body, calls: seq<Call>, from: nat, later: nat)
    requires from <= later
    requires StopRequested(body, calls, later)
    ensures StopRequested(body, calls, from)
  {
  }

  /** A GoToNow action runs the engine again, on the machine nextState leaves, with one less unit of fuel. */
  lemma ReactGoesNow(reg: Registry, body: Body, m: Machine, n: string, now: real, fuel: nat)
    requires RegistryOk(reg) && ValidMachine(reg, m) && fuel > 0 && n in reg.states
    ensures var s := NextState(reg, m, n);
      && s.after.shouldEngage == m.shouldEngage && s.after.current == Some(n) && s.after.calls == m.calls
      && React(reg, body, m, GoToNow(n), now, fuel) == Finish(Execute(reg, body, s.after, now, fuel - 1))
  {
    NextStateNowExecutes(reg, body, m, n, now, fuel - 1);
  }

  /** Clearing the engage latch keeps a stop request found in the calls. */
  lemma FinishKeepsStop(body: Body, r: Step, inner: Step, from: nat, mid: nat)
    requires r == Finish(inner) && from <= mid
    requires inner.failure.None? && !inner.after.engaged ==> StopRequested(body, inner.after.calls, mid)
    ensures r.failure.None? && !r.after.engaged ==> StopRequested(body, r.after.calls, from)
  {
    if r.failure.None? && !r.after.engaged {
      StopLater(body, inner.after.calls, from, mid);
    }
  }

  /** A stop request made in the tick that GoToNow starts is one made after the GoToNow. */
  lemma GoToNowKeepsStop(reg: Registry, body: Body, m: Machine, t: string, now: real, fuel: nat)
    requires RegistryOk(reg) && ValidMachine(reg, m) && fuel > 0 && t in reg.states
    requires m.shouldEngage && m.engaged
    ensures var r := React(reg, body, m, GoToNow(t), now, fuel);
      r.failure.None? && !r.after.engaged ==> StopRequested(body, r.after.calls, |m.calls|)
    decreases fuel, 0
  {
    var s := NextState(reg, m, t);
    ReactGoesNow(reg, body, m, t, now, fuel);
    EngagedTickRuns(reg, body, s.after, now, fuel - 1);
    FinishKeepsStop(body, React(reg, body, m, GoToNow(t), now, fuel), Execute(reg, body, s.after, now, fuel - 1), |m.calls|, |s.after.calls|);
  }

  /** The action part of EngagedTickRuns: only Stop, here or in a nested tick, ends the run. */
  lemma {:induction false} EngagedReactRuns(reg: Registry, body: Body, m: Machine, a: Action, now: real, fuel: nat)
    requires RegistryOk(reg) && ValidMachine(reg, m)
    requires m.shouldEngage && m.engaged
    ensures var r := React(reg, body, m, a, now, fuel);
      r.failure.None? && !r.after.engaged ==> a == Stop || StopRequested(body, r.after.calls, |m.calls|)
    decreases fuel, 1
  {
    match a
    case GoToNow(t) =>
      if fuel > 0 && t in reg.states {
        GoToNowKeepsStop(reg, body, m, t, now, fuel);
      }
    case _ =>
  }
}
