/**
 * The state registry built by the StateMachine constructor: every method of
 * the machine that carries @State, @TimedState or @DefaultState becomes an
 * immutable descriptor, and the constructor rejects invalid durations, more
 * than one first state, more than one default state and a missing first state.
 */
module StateRegistry {
  import opened Wrappers

  /** The @State annotation. */
  datatype StateAnn = StateAnn(first: bool, mustFinish: bool)

  /** The @TimedState annotation; an empty nextState means "last state of the chain". */
  datatype TimedAnn = TimedAnn(duration: real, nextState: string, first: bool, mustFinish: bool)

  /** One declared method of the machine, with the state annotations it carries. */
  datatype Decl = Decl(name: string, state: Option<StateAnn>, timed: Option<TimedAnn>, isDefault: bool)

  /** The duration a @TimedState has when none is written. */
  const UnsetDuration: real := -1.0

  /** How long a state lasts; non-timed states last forever (Double.MAX_VALUE). */
  datatype Duration = Forever | Seconds(length: real)

  /** The immutable part of a state's data. */
  datatype StateInfo = StateInfo(
    name: string,
    duration: Duration,
    next: Option<string>,
    first: bool,
    mustFinish: bool,
    isDefault: bool)

  datatype ConfigError =
    | StateAndTimedState(stateName: string)
    | InvalidDuration(stateName: string)
    | MultipleFirstStates
    | MultipleDefaultStates
    | NoFirstState

  /** The registry of a successfully constructed machine. */
  datatype Registry = Registry(states: map<string, StateInfo>, first: string, default: Option<string>)

  predicate Annotated(d: Decl) {
    d.state.Some? || d.timed.Some? || d.isDefault
  }

  /** @State takes precedence over @DefaultState, and so does @TimedState. */
  predicate MarkedFirst(d: Decl) {
    if d.state.Some? then d.state.value.first
    else d.timed.Some? && d.timed.value.first
  }

  predicate MarkedDefault(d: Decl) {
    d.isDefault && d.state.None? && d.timed.None?
  }

  predicate BadDuration(d: Decl) {
    d.state.None? && d.timed.Some? && d.timed.value.duration <= 0.0
  }

  predicate BothStateAndTimed(d: Decl) {
    d.state.Some? && d.timed.Some?
  }

  /** What every descriptor looks like, whichever annotation produced it. */
  predicate WellShaped(s: StateInfo) {
    && (s.duration.Seconds? ==> s.duration.length > 0.0)
    && (s.next.Some? ==> s.duration.Seconds? && s.next.value != "")
    && (s.isDefault ==> !s.first && s.mustFinish && s.duration.Forever?)
  }

  /**
   * The three StateData constructors, and the check that a method is not
   * both @State and @TimedState. Success(None) is a method without state
   * annotations, which the constructor skips.
   */
  function Describe(d: Decl): (r: Result<Option<StateInfo>, ConfigError>)
    ensures (r.Success? && r.value.None?) <==> !Annotated(d)
    ensures r == Failure(StateAndTimedState(d.name)) <==> BothStateAndTimed(d)
    ensures r == Failure(InvalidDuration(d.name)) <==> BadDuration(d)
    ensures r.Failure? ==> BothStateAndTimed(d) || BadDuration(d)
    ensures r.Success? && r.value.Some? ==>
      var s := r.value.value;
      && s.name == d.name
      && WellShaped(s)
      && (s.first <==> MarkedFirst(d))
      && (s.isDefault <==> MarkedDefault(d))
      && (s.duration.Seconds? <==> d.state.None? && d.timed.Some?)
      && (d.state.Some? ==> s.mustFinish == d.state.value.mustFinish && s.next.None?)
      && (d.state.None? && d.timed.Some? ==>
            && s.duration == Seconds(d.timed.value.duration)
            && s.mustFinish == d.timed.value.mustFinish
            && s.next == if d.timed.value.nextState == "" then None else Some(d.timed.value.nextState))
      && (MarkedDefault(d) ==> s.mustFinish && s.next.None?)
  {
    if !Annotated(d) then Success(None)
    else if d.state.Some? && d.timed.Some? then Failure(StateAndTimedState(d.name))
    else if d.state.Some? then
      var a := d.state.value;
      Success(Some(StateInfo(d.name, Forever, None, a.first, a.mustFinish, false)))
    else if d.timed.Some? then
      var a := d.timed.value;
      if a.duration <= 0.0 then Failure(InvalidDuration(d.name))
      else
        var next := if a.nextState == "" then None else Some(a.nextState);
        Success(Some(StateInfo(d.name, Seconds(a.duration), next, a.first, a.mustFinish, false)))
    else
      Success(Some(StateInfo(d.name, Forever, None, false, true, true)))
  }

  /** The constructor's accumulators part way through its loop. */
  datatype Table = Table(states: map<string, StateInfo>, first: Option<string>, default: Option<string>)

  const EmptyTable: Table := Table(map[], None, None)

  /** One iteration of the constructor's loop on a described state. */
  function Add(t: Table, s: StateInfo): Result<Table, ConfigError> {
    if s.first && t.first.Some? then Failure(MultipleFirstStates)
    else if s.isDefault && t.default.Some? then Failure(MultipleDefaultStates)
    else
      Success(Table(
        t.states[s.name := s],
        if s.first then Some(s.name) else t.first,
        if s.isDefault then Some(s.name) else t.default))
  }

  /** The constructor's loop over the declared methods, in order; the first error wins. */
  function Scan(ds: seq<Decl>): Result<Table, ConfigError>
    decreases |ds|
  {
    if ds == [] then Success(EmptyTable)
    else
      match Scan(ds[..|ds| - 1])
      case Failure(e) => Failure(e)
      case Success(t) =>
        match Describe(ds[|ds| - 1])
        case Failure(e) => Failure(e)
        case Success(None) => Success(t)
        case Success(Some(s)) => Add(t, s)
  }

  /** What the constructor produces: the registry, or the error it throws. */
  function RegistryOf(ds: seq<Decl>): Result<Registry, ConfigError> {
    match Scan(ds)
    case Failure(e) => Failure(e)
    case Success(t) =>
      if t.first.None? then Failure(NoFirstState)
      else Success(Registry(t.states, t.first.value, t.default))
  }

  /** The StateMachine constructor's loop. */
  method Build(ds: seq<Decl>) returns (r: Result<Registry, ConfigError>)
    ensures r == RegistryOf(ds)
  {
    var states: map<string, StateInfo> := map[];
    var first: Option<string> := None;
    var default: Option<string> := None;
    var i := 0;
    while i < |ds|
      invariant 0 <= i <= |ds|
      invariant Scan(ds[..i]) == Success(Table(states, first, default))
    {
      assert ds[..i + 1][..i] == ds[..i];
      var described := Describe(ds[i]);
      if described.Failure? {
        FailureSticks(ds, i + 1);
        return Failure(described.error);
      }
      if described.value.Some? {
        var s := described.value.value;
        if s.first {
          if first.Some? {
            FailureSticks(ds, i + 1);
            return Failure(MultipleFirstStates);
          }
          first := Some(s.name);
        }
        if s.isDefault {
          if default.Some? {
            FailureSticks(ds, i + 1);
            return Failure(MultipleDefaultStates);
          }
          default := Some(s.name);
        }
        states := states[s.name := s];
      }
      i := i + 1;
    }
    assert ds[..|ds|] == ds;
    if first.None? {
      return Failure(NoFirstState);
    }
    return Success(Registry(states, first.value, default));
  }

  /** Once a prefix of the declarations fails, the whole construction fails the same way. */
  lemma {:induction false} FailureSticks(ds: seq<Decl>, k: nat)
    requires k <= |ds|
    requires Scan(ds[..k]).Failure?
    ensures Scan(ds) == Scan(ds[..k])
    decreases |ds|
  {
    if k < |ds| {
      var p := ds[..|ds| - 1];
      assert p[..k] == ds[..k];
      FailureSticks(p, k);
    } else {
      assert ds[..k] == ds;
    }
  }

  function FirstCount(ds: seq<Decl>): nat
    decreases |ds|
  {
    if ds == [] then 0
    else FirstCount(ds[..|ds| - 1]) + (if MarkedFirst(ds[|ds| - 1]) then 1 else 0)
  }

  function DefaultCount(ds: seq<Decl>): nat
    decreases |ds|
  {
    if ds == [] then 0
    else DefaultCount(ds[..|ds| - 1]) + (if MarkedDefault(ds[|ds| - 1]) then 1 else 0)
  }

  /** No declaration is rejected on its own. */
  predicate DeclsOk(ds: seq<Decl>) {
    forall i | 0 <= i < |ds| :: !BothStateAndTimed(ds[i]) && !BadDuration(ds[i])
  }

  /** Two annotated methods never share a name (Java overloads could). */
  predicate DistinctNames(ds: seq<Decl>) {
    forall i, j | 0 <= i < j < |ds| && Annotated(ds[i]) && Annotated(ds[j]) :: ds[i].name != ds[j].name
  }

  function AnnotatedNames(ds: seq<Decl>): set<string> {
    set i | 0 <= i < |ds| && Annotated(ds[i]) :: ds[i].name
  }

  /** What an error says about the declarations that produced it. */
  predicate Explains(ds: seq<Decl>, e: ConfigError) {
    match e
    case StateAndTimedState(n) => exists i | 0 <= i < |ds| :: ds[i].name == n && BothStateAndTimed(ds[i])
    case InvalidDuration(n) => exists i | 0 <= i < |ds| :: ds[i].name == n && BadDuration(ds[i])
    case MultipleFirstStates => FirstCount(ds) >= 2
    case MultipleDefaultStates => DefaultCount(ds) >= 2
    case NoFirstState => FirstCount(ds) == 0
  }

  lemma DeclsOkSplit(ds: seq<Decl>)
    requires ds != []
    ensures DeclsOk(ds) <==> DeclsOk(ds[..|ds| - 1]) && !BothStateAndTimed(ds[|ds| - 1]) && !BadDuration(ds[|ds| - 1])
  {
    var p := ds[..|ds| - 1];
    if DeclsOk(p) && !BothStateAndTimed(ds[|ds| - 1]) && !BadDuration(ds[|ds| - 1]) {
      forall i | 0 <= i < |ds| ensures !BothStateAndTimed(ds[i]) && !BadDuration(ds[i]) {
        if i < |ds| - 1 { assert ds[i] == p[i]; }
      }
    }
  }

  /** The loop gets through every declaration exactly when none is bad and neither mark is repeated. */
  lemma {:induction false} ScanSucceeds(ds: seq<Decl>)
    ensures Scan(ds).Success? <==> DeclsOk(ds) && FirstCount(ds) <= 1 && DefaultCount(ds) <= 1
    ensures Scan(ds).Success? ==>
      && (Scan(ds).value.first.Some? <==> FirstCount(ds) == 1)
      && (Scan(ds).value.default.Some? <==> DefaultCount(ds) == 1)
    decreases |ds|
  {
    if ds != [] {
      var p := ds[..|ds| - 1];
      ScanSucceeds(p);
      DeclsOkSplit(ds);
    }
  }

  /** Every error the loop throws is justified by the declarations. */
  lemma {:induction false} ScanFailureExplained(ds: seq<Decl>)
    ensures Scan(ds).Failure? ==> Scan(ds).error != NoFirstState && Explains(ds, Scan(ds).error)
    decreases |ds|
  {
    if ds != [] {
      var p := ds[..|ds| - 1];
      var d := ds[|ds| - 1];
      ScanFailureExplained(p);
      match Scan(p) {
        case Failure(e) =>
          match e {
            case StateAndTimedState(n) =>
              var i :| 0 <= i < |p| && p[i].name == n && BothStateAndTimed(p[i]);
              assert ds[i] == p[i];
            case InvalidDuration(n) =>
              var i :| 0 <= i < |p| && p[i].name == n && BadDuration(p[i]);
              assert ds[i] == p[i];
            case _ =>
          }
        case Success(t) =>
          ScanSucceeds(p);
          if Describe(d).Failure? {
            assert ds[|ds| - 1] == d;
          }
      }
    }
  }

  /** The constructor succeeds exactly when the three rules hold and no method is rejected. */
  lemma BuildSucceedsIff(ds: seq<Decl>)
    ensures RegistryOf(ds).Success? <==> DeclsOk(ds) && FirstCount(ds) == 1 && DefaultCount(ds) <= 1
  {
    ScanSucceeds(ds);
  }

  /** Every error the constructor throws is justified by the declarations. */
  lemma BuildFailureExplained(ds: seq<Decl>)
    ensures RegistryOf(ds).Failure? ==> Explains(ds, RegistryOf(ds).error)
  {
    ScanFailureExplained(ds);
    ScanSucceeds(ds);
  }

  /** A timed state with a non-positive duration is rejected, by its own error if nothing before it failed. */
  lemma InvalidDurationRejected(ds: seq<Decl>, i: nat)
    requires i < |ds| && BadDuration(ds[i])
    ensures RegistryOf(ds).Failure?
    ensures Scan(ds[..i]).Success? ==> RegistryOf(ds) == Failure(InvalidDuration(ds[i].name))
  {
    BuildSucceedsIff(ds);
    if Scan(ds[..i]).Success? {
      var q := ds[..i + 1];
      assert q[..i] == ds[..i];
      assert q[i] == ds[i];
      FailureSticks(ds, i + 1);
    }
  }

  /** The keys the engine relies on: the first and default states exist, and every descriptor is well shaped. */
  predicate RegistryOk(reg: Registry) {
    && reg.first in reg.states
    && (reg.default.Some? ==> reg.default.value in reg.states)
    && forall k | k in reg.states :: WellShaped(reg.states[k])
  }

  /** The registry invariants: one first state, at most one default, every descriptor filed under its name. */
  predicate WellFormed(reg: Registry) {
    && RegistryOk(reg)
    && forall k | k in reg.states ::
      && reg.states[k].name == k
      && (reg.states[k].first <==> k == reg.first)
      && (reg.states[k].isDefault <==> reg.default == Some(k))
  }

  predicate TableOk(t: Table) {
    && (t.first.Some? ==> t.first.value in t.states)
    && (t.default.Some? ==> t.default.value in t.states)
    && forall k | k in t.states :: WellShaped(t.states[k])
  }

  lemma {:induction false} ScanTableOk(ds: seq<Decl>)
    ensures Scan(ds).Success? ==> TableOk(Scan(ds).value)
    decreases |ds|
  {
    if ds != [] {
      ScanTableOk(ds[..|ds| - 1]);
    }
  }

  /** Whatever the declarations, a constructed registry has its first and default states. */
  lemma BuildOk(ds: seq<Decl>)
    ensures RegistryOf(ds).Success? ==> RegistryOk(RegistryOf(ds).value)
  {
    ScanTableOk(ds);
  }

  /** The table holds exactly the described states, each under its own name. */
  predicate TableMatches(ds: seq<Decl>, t: Table) {
    t.states.Keys == AnnotatedNames(ds) && DeclsFiled(ds, t) && KeysFiled(t)
  }

  lemma AnnotatedNamesLast(ds: seq<Decl>)
    requires ds != []
    ensures AnnotatedNames(ds) ==
      AnnotatedNames(ds[..|ds| - 1]) + (if Annotated(ds[|ds| - 1]) then {ds[|ds| - 1].name} else {})
  {
    var p, d := ds[..|ds| - 1], ds[|ds| - 1];
    forall n | n in AnnotatedNames(ds) ensures n in AnnotatedNames(p) + (if Annotated(d) then {d.name} else {}) {
      var i :| 0 <= i < |ds| && Annotated(ds[i]) && ds[i].name == n;
      if i < |p| { assert p[i] == ds[i]; }
    }
    forall n | n in AnnotatedNames(p) ensures n in AnnotatedNames(ds) {
      var i :| 0 <= i < |p| && Annotated(p[i]) && p[i].name == n;
      assert ds[i] == p[i];
    }
  }

  lemma DistinctNamesLast(ds: seq<Decl>)
    requires ds != [] && DistinctNames(ds)
    ensures DistinctNames(ds[..|ds| - 1])
    ensures Annotated(ds[|ds| - 1]) ==> ds[|ds| - 1].name !in AnnotatedNames(ds[..|ds| - 1])
  {
    var p, d := ds[..|ds| - 1], ds[|ds| - 1];
    forall i, j | 0 <= i < j < |p| && Annotated(p[i]) && Annotated(p[j]) ensures p[i].name != p[j].name {
      assert p[i] == ds[i] && p[j] == ds[j];
    }
  }

  /** The per-key part of TableMatches. */
  predicate KeysFiled(t: Table) {
    forall k | k in t.states ::
      && t.states[k].name == k
      && (t.states[k].first <==> t.first == Some(k))
      && (t.states[k].isDefault <==> t.default == Some(k))
  }

  /** The per-declaration part of TableMatches. */
  predicate DeclsFiled(ds: seq<Decl>, t: Table) {
    forall i | 0 <= i < |ds| && Annotated(ds[i]) ::
      Describe(ds[i]).Success? && ds[i].name in t.states && t.states[ds[i].name] == Describe(ds[i]).value.value
  }

  lemma AddKeysFiled(t: Table, s: StateInfo)
    requires TableOk(t) && KeysFiled(t) && s.name !in t.states
    requires Add(t, s).Success?
    ensures KeysFiled(Add(t, s).value)
  {
  }

  lemma DeclsFiledLast(ds: seq<Decl>, t: Table, t': Table)
    requires ds != [] && DeclsFiled(ds[..|ds| - 1], t)
    requires forall k | k in t.states :: k in t'.states && t'.states[k] == t.states[k]
    requires Annotated(ds[|ds| - 1]) ==>
      Describe(ds[|ds| - 1]).Success? && ds[|ds| - 1].name in t'.states
      && t'.states[ds[|ds| - 1].name] == Describe(ds[|ds| - 1]).value.value
    requires Annotated(ds[|ds| - 1]) ==> forall k | k in t.states :: k != ds[|ds| - 1].name
    ensures DeclsFiled(ds, t')
  {
    var p := ds[..|ds| - 1];
    forall i | 0 <= i < |ds| - 1 && Annotated(ds[i])
      ensures Describe(ds[i]).Success? && ds[i].name in t'.states && t'.states[ds[i].name] == Describe(ds[i]).value.value
    {
      assert p[i] == ds[i];
    }
  }

  /** Adding a state under a fresh name keeps the table in step with the declarations. */
  lemma AddMatches(ds: seq<Decl>, t: Table)
    requires ds != [] && DistinctNames(ds)
    requires Scan(ds[..|ds| - 1]) == Success(t) && TableOk(t)
    requires TableMatches(ds[..|ds| - 1], t)
    requires Scan(ds).Success?
    ensures TableMatches(ds, Scan(ds).value)
  {
    var d := ds[|ds| - 1];
    var t' := Scan(ds).value;
    AnnotatedNamesLast(ds);
    DistinctNamesLast(ds);
    if Annotated(d) {
      var s := Describe(d).value.value;
      assert t' == Add(t, s).value;
      AddKeysFiled(t, s);
    } else {
      assert t' == t;
    }
    DeclsFiledLast(ds, t, t');
  }

  lemma {:induction false} ScanMatches(ds: seq<Decl>)
    requires DistinctNames(ds)
    ensures Scan(ds).Success? ==> TableMatches(ds, Scan(ds).value)
    decreases |ds|
  {
    if ds != [] && Scan(ds).Success? {
      var p := ds[..|ds| - 1];
      DistinctNamesLast(ds);
      ScanMatches(p);
      ScanTableOk(p);
      AddMatches(ds, Scan(p).value);
    }
  }

  /**
   * With distinct method names, a constructed registry satisfies its
   * invariants and reads back exactly the descriptor of every annotated method.
   */
  lemma BuildRoundTrip(ds: seq<Decl>)
    requires DistinctNames(ds)
    ensures RegistryOf(ds).Success? ==>
      var reg := RegistryOf(ds).value;
      && WellFormed(reg)
      && reg.states.Keys == AnnotatedNames(ds)
      && forall i | 0 <= i < |ds| && Annotated(ds[i]) ::
           Describe(ds[i]).Success? && reg.states[ds[i].name] == Describe(ds[i]).value.value
  {
    ScanMatches(ds);
    ScanTableOk(ds);
  }
}
