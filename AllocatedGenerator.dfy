/** The allocator-driven Langium generator (the compiled `generator.js`): it
    runs the pin allocator over the bricks first, so a brick's pin in the
    `setup()` lines, the actions and the guards is whatever `getPin` answers,
    and a failed allocation stops `compile` before anything is appended. */
module AllocatedGenerator {
  import opened Common
  import opened Ast
  import opened Guards
  import opened Pins
  import opened Generator

  /** The blank tail of the debounce-globals template in this generator. */
  const SENSOR_GLOBAL_INDENT: string := "            "

  // ------------------------------------------------------------ what the source requires

  /** `action.actuator.ref` and `action.value.value` are read unguarded. */
  predicate ActionReadable(a: Action)
  {
    !a.actuator.NoLink? && a.value.Some?
  }

  /** `condition.brick.ref` is read unguarded, and `condition.value.value`
      for a condition on a `Sensor` or an `Actuator`. */
  predicate ConditionReadable(c: Condition)
  {
    && !c.brick.NoLink?
    && (c.brick.Resolved? && (c.brick.target.kind == Sensor || c.brick.target.kind == Actuator) ==> c.value.Some?)
  }

  predicate StateReadable(s: State)
  {
    && s.transition.Some?
    && (forall i :: 0 <= i < |s.actions| ==> ActionReadable(s.actions[i]))
    && (forall i :: 0 <= i < |s.transition.value.conditions| ==> ConditionReadable(s.transition.value.conditions[i]))
  }

  predicate StatesReadable(states: seq<State>)
  {
    forall i :: 0 <= i < |states| ==> StateReadable(states[i])
  }

  /** What `compile` needs of an app: when the allocation throws, no state
      is read; otherwise every state is read. */
  predicate Compilable(app: App)
  {
    AllocatePinsSpec(Init(false), app.bricks).failed.None? ==> StatesReadable(app.states)
  }

  // ------------------------------------------------------------ fragments

  /** The summary text `getAllocationSummary` returns for an allocator state. */
  function SummaryText(st: AllocState): string
    requires Consistent(st)
  {
    Join([SUMMARY_HEADER] + SummaryLines(st.allocations, st.order), "\n")
  }

  /** The header, with the allocation summary between the name and the enum. */
  function AllocatedHeader(app: App, summary: string): string
  {
    "\n//Wiring code generated from an ArduinoML model\n// Application name: " + app.name
    + "\n\n" + summary
    + "\n\nlong debounce = 200;\nenum STATE {" + Join(StateNames(app.states), ", ")
    + "};\n\nSTATE currentState = " + OptionText(app.initial) + ";"
  }

  /** Debounce globals for every `Sensor` brick, and for no other. */
  function SensorGlobalsFragments(bricks: seq<Brick>): seq<string>
  {
    if bricks == [] then []
    else
      SensorGlobalsFragments(bricks[..|bricks| - 1])
      + (var b := bricks[|bricks| - 1];
         if b.kind == Sensor then [DebounceGlobal(b.name, SENSOR_GLOBAL_INDENT), NL] else [])
  }

  function SensorSetupLine(b: Brick, pin: int): string
  {
    "\n\t\tpinMode(" + IntToString(pin) + ", INPUT); // " + b.name + " [Sensor]"
  }

  function ActuatorSetupLine(b: Brick, pin: int): string
  {
    "\n\t\tpinMode(" + IntToString(pin) + ", OUTPUT); // " + b.name + " [Actuator]"
  }

  /** `compileSensor` for a `Sensor`, `compileActuator` for an `Actuator`,
      nothing for any other brick. */
  function BrickSetupFragments(b: Brick, allocations: map<Brick, int>): seq<string>
  {
    if b.kind == Sensor then [SensorSetupLine(b, PinOf(allocations, b))]
    else if b.kind == Actuator then [ActuatorSetupLine(b, PinOf(allocations, b))]
    else []
  }

  function AllocatedSetupFragments(bricks: seq<Brick>, allocations: map<Brick, int>): seq<string>
  {
    if bricks == [] then []
    else AllocatedSetupFragments(bricks[..|bricks| - 1], allocations) + BrickSetupFragments(bricks[|bricks| - 1], allocations)
  }

  /** `getPin(x.ref)`: an unresolved reference reads as -1 like an unknown brick. */
  function LinkPin(allocations: map<Brick, int>, l: Link<Brick>): int
  {
    if l.Resolved? then PinOf(allocations, l.target) else -1
  }

  function AllocatedActionLine(a: Action, allocations: map<Brick, int>): string
    requires ActionReadable(a)
  {
    DigitalWrite(IntToString(LinkPin(allocations, a.actuator)), a.value.value)
  }

  function AllocatedActionsFragments(actions: seq<Action>, allocations: map<Brick, int>): seq<string>
    requires forall i :: 0 <= i < |actions| ==> ActionReadable(actions[i])
  {
    if actions == [] then []
    else
      AllocatedActionsFragments(actions[..|actions| - 1], allocations)
      + [AllocatedActionLine(actions[|actions| - 1], allocations)]
  }

  function DigitalReadText(pin: int, value: string): string
  {
    "digitalRead(" + IntToString(pin) + ") == " + value
  }

  /** The text of one condition: skipped (`None`) when its brick does not
      resolve, a digital read of the allocated pin for a `Sensor` or an
      `Actuator`, the empty text for any other brick. */
  function AllocatedPiece(c: Condition, allocations: map<Brick, int>): Option<string>
    requires ConditionReadable(c)
  {
    if !c.brick.Resolved? then None
    else if c.brick.target.kind == Sensor || c.brick.target.kind == Actuator then
      Some(DigitalReadText(PinOf(allocations, c.brick.target), c.value.value))
    else Some("")
  }

  function AllocatedPieces(conds: seq<Condition>, allocations: map<Brick, int>): (r: seq<Option<string>>)
    requires forall i :: 0 <= i < |conds| ==> ConditionReadable(conds[i])
    ensures |r| == |conds|
  {
    if conds == [] then []
    else AllocatedPieces(conds[..|conds| - 1], allocations) + [AllocatedPiece(conds[|conds| - 1], allocations)]
  }

  function AllocatedTransitionFragments(t: Transition, allocations: map<Brick, int>): seq<string>
    requires forall i :: 0 <= i < |t.conditions| ==> ConditionReadable(t.conditions[i])
  {
    var sensors := DebouncedSensors(t.conditions);
    [GuardLine(JoinConds(AllocatedPieces(t.conditions, allocations), t.operators), sensors)]
    + DebounceUpdates(sensors)
    + [NextStateLine(t.next)]
  }

  function AllocatedStateFragments(s: State, allocations: map<Brick, int>): seq<string>
    requires StateReadable(s)
  {
    [CaseLine(s.name)] + AllocatedActionsFragments(s.actions, allocations)
    + AllocatedTransitionFragments(s.transition.value, allocations) + [BREAK]
  }

  function AllocatedStatesFragments(states: seq<State>, allocations: map<Brick, int>): seq<string>
    requires StatesReadable(states)
  {
    if states == [] then []
    else AllocatedStatesFragments(states[..|states| - 1], allocations) + AllocatedStateFragments(states[|states| - 1], allocations)
  }

  /** Everything `compile` appends once the allocation succeeded. */
  function AllocatedCompileFragments(app: App, allocations: map<Brick, int>, summary: string): seq<string>
    requires StatesReadable(app.states)
  {
    AllocatedPrologue(app, allocations, summary)
    + [LOOP_OPEN, NL] + AllocatedStatesFragments(app.states, allocations) + [LOOP_CLOSE, NL]
  }

  /** The header, the debounce globals and the `setup()` block. */
  function AllocatedPrologue(app: App, allocations: map<Brick, int>, summary: string): seq<string>
  {
    [AllocatedHeader(app, summary), NL] + SensorGlobalsFragments(app.bricks) + [SETUP_OPEN]
    + AllocatedSetupFragments(app.bricks, allocations)
  }

  /** The outcome of `compile`: the allocation error it throws, or the
      fragments it appends. */
  function CompileOutcome(app: App): Result<seq<string>, string>
    requires Compilable(app)
  {
    var o := AllocatePinsSpec(Init(false), app.bricks);
    if o.failed.Some? then Err(AllocationError(o.failed.value))
    else
      InitFacts(false);
      ManualPassFacts(Init(false), app.bricks);
      AutoPassInv(ManualPass(Init(false), app.bricks), app.bricks);
      Ok(AllocatedCompileFragments(app, o.st.allocations, SummaryText(o.st)))
  }

  // ------------------------------------------------------------ emitters

  method EmitSensorGlobals(bricks: seq<Brick>, f: FileNode)
    modifies f
    ensures f.parts == old(f.parts) + SensorGlobalsFragments(bricks)
  {
    var i := 0;
    while i < |bricks|
      invariant 0 <= i <= |bricks|
      invariant f.parts == old(f.parts) + SensorGlobalsFragments(bricks[..i])
    {
      assert bricks[..i + 1][..i] == bricks[..i];
      if bricks[i].kind == Sensor {
        f.AppendAll([DebounceGlobal(bricks[i].name, SENSOR_GLOBAL_INDENT), NL]);
      }
      i := i + 1;
    }
    assert bricks[..i] == bricks;
  }

  method EmitAllocatedSetup(bricks: seq<Brick>, pa: PinAllocator, f: FileNode)
    modifies f
    ensures f.parts == old(f.parts) + AllocatedSetupFragments(bricks, pa.allocations)
  {
    var i := 0;
    while i < |bricks|
      invariant 0 <= i <= |bricks|
      invariant f.parts == old(f.parts) + AllocatedSetupFragments(bricks[..i], pa.allocations)
    {
      assert bricks[..i + 1][..i] == bricks[..i];
      var b := bricks[i];
      if b.kind == Sensor {
        f.Append(SensorSetupLine(b, pa.GetPin(b)));
      } else if b.kind == Actuator {
        f.Append(ActuatorSetupLine(b, pa.GetPin(b)));
      }
      i := i + 1;
    }
    assert bricks[..i] == bricks;
  }

  /** `compileAction`. */
  method CompileAllocatedAction(a: Action, pa: PinAllocator, f: FileNode)
    requires ActionReadable(a)
    modifies f
    ensures f.parts == old(f.parts) + [AllocatedActionLine(a, pa.allocations)]
  {
    var pin := if a.actuator.Resolved? then pa.GetPin(a.actuator.target) else -1;
    f.Append(DigitalWrite(IntToString(pin), a.value.value));
  }

  method EmitAllocatedActions(actions: seq<Action>, pa: PinAllocator, f: FileNode)
    requires forall i :: 0 <= i < |actions| ==> ActionReadable(actions[i])
    modifies f
    ensures f.parts == old(f.parts) + AllocatedActionsFragments(actions, pa.allocations)
  {
    var i := 0;
    while i < |actions|
      invariant 0 <= i <= |actions|
      invariant f.parts == old(f.parts) + AllocatedActionsFragments(actions[..i], pa.allocations)
    {
      assert actions[..i + 1][..i] == actions[..i];
      CompileAllocatedAction(actions[i], pa, f);
      i := i + 1;
    }
    assert actions[..i] == actions;
  }

  /** The condition-building loop of `compileTransition`: a condition whose
      brick does not resolve is skipped, but the operator test looks at the
      loop index. */
  method AllocatedConditionCode(conds: seq<Condition>, ops: seq<string>, pa: PinAllocator) returns (code: string)
    requires forall i :: 0 <= i < |conds| ==> ConditionReadable(conds[i])
    ensures code == JoinConds(AllocatedPieces(conds, pa.allocations), ops)
  {
    code := "";
    var i := 0;
    while i < |conds|
      invariant 0 <= i <= |conds|
      invariant code == JoinConds(AllocatedPieces(conds[..i], pa.allocations), ops)
    {
      assert conds[..i + 1][..i] == conds[..i];
      var c := conds[i];
      ghost var pieces := AllocatedPieces(conds[..i + 1], pa.allocations);
      assert pieces[..i] == AllocatedPieces(conds[..i], pa.allocations);
      assert pieces[i] == AllocatedPiece(c, pa.allocations);
      if !c.brick.Resolved? {
        i := i + 1;
        continue;
      }
      var pin := pa.GetPin(c.brick.target);
      var condStr := "";
      if c.brick.target.kind == Sensor {
        condStr := DigitalReadText(pin, c.value.value);
      } else if c.brick.target.kind == Actuator {
        condStr := DigitalReadText(pin, c.value.value);
      }
      if i == 0 {
        code := condStr;
      } else {
        code := code + OpAt(ops, i - 1) + condStr;
      }
      i := i + 1;
    }
    assert conds[..i] == conds;
  }

  /** `compileTransition`. */
  method CompileAllocatedTransition(t: Transition, pa: PinAllocator, f: FileNode)
    requires forall i :: 0 <= i < |t.conditions| ==> ConditionReadable(t.conditions[i])
    modifies f
    ensures f.parts == old(f.parts) + AllocatedTransitionFragments(t, pa.allocations)
  {
    var sensors := CollectSensors(t.conditions);
    var code := AllocatedConditionCode(t.conditions, t.operators, pa);
    ghost var before := f.parts;
    var guard := GuardLine(code, sensors);
    var next := NextStateLine(t.next);
    f.Append(guard);
    EmitDebounceUpdates(sensors, f);
    f.Append(next);
    AppendAssoc3(before, [guard], DebounceUpdates(sensors), [next]);
  }

  /** `compileState`. */
  method CompileAllocatedState(s: State, pa: PinAllocator, f: FileNode)
    requires StateReadable(s)
    modifies f
    ensures f.parts == old(f.parts) + AllocatedStateFragments(s, pa.allocations)
  {
    ghost var before := f.parts;
    var caseLine := CaseLine(s.name);
    f.Append(caseLine);
    EmitAllocatedActions(s.actions, pa, f);
    CompileAllocatedTransition(s.transition.value, pa, f);
    f.Append(BREAK);
    AppendAssoc4(before, [caseLine], AllocatedActionsFragments(s.actions, pa.allocations),
      AllocatedTransitionFragments(s.transition.value, pa.allocations), [BREAK]);
  }

  lemma AllocatedStatesSnoc(states: seq<State>, allocations: map<Brick, int>, i: nat)
    requires StatesReadable(states) && i < |states|
    ensures StatesReadable(states[..i]) && StatesReadable(states[..i + 1])
    ensures AllocatedStatesFragments(states[..i + 1], allocations)
      == AllocatedStatesFragments(states[..i], allocations) + AllocatedStateFragments(states[i], allocations)
  {
    assert states[..i + 1][..i] == states[..i];
  }

  method EmitAllocatedStates(states: seq<State>, pa: PinAllocator, f: FileNode)
    requires StatesReadable(states)
    modifies f
    ensures f.parts == old(f.parts) + AllocatedStatesFragments(states, pa.allocations)
  {
    var i := 0;
    while i < |states|
      invariant 0 <= i <= |states|
      invariant f.parts == old(f.parts) + AllocatedStatesFragments(states[..i], pa.allocations)
    {
      AllocatedStatesSnoc(states, pa.allocations, i);
      CompileAllocatedState(states[i], pa, f);
      AppendAssoc(old(f.parts), AllocatedStatesFragments(states[..i], pa.allocations),
        AllocatedStateFragments(states[i], pa.allocations));
      i := i + 1;
    }
    assert states[..i] == states;
  }

  /** `compile`: allocates first; on an allocation error nothing is appended
      and the error is returned (the source throws it). */
  method CompileAllocated(app: App, f: FileNode) returns (error: Option<string>)
    requires Compilable(app)
    modifies f
    ensures CompileOutcome(app).Err? ==> error == Some(CompileOutcome(app).error) && f.parts == old(f.parts)
    ensures CompileOutcome(app).Ok? ==> error.None? && f.parts == old(f.parts) + CompileOutcome(app).value
  {
    var pa := new PinAllocator(false);
    var r := pa.AllocatePins(app.bricks);
    if r.Err? {
      return Some(r.error);
    }
    var summary := pa.GetAllocationSummary();
    EmitProgram(app, pa, summary, f);
    return None;
  }

  /** The appends of `compile` after the allocation. */
  method EmitProgram(app: App, pa: PinAllocator, summary: string, f: FileNode)
    requires StatesReadable(app.states)
    modifies f
    ensures f.parts == old(f.parts) + AllocatedCompileFragments(app, pa.allocations, summary)
  {
    ghost var before := f.parts;
    EmitPrologue(app, pa, summary, f);
    f.AppendAll([LOOP_OPEN, NL]);
    EmitAllocatedStates(app.states, pa, f);
    f.AppendAll([LOOP_CLOSE, NL]);
    AppendAssoc4(before, AllocatedPrologue(app, pa.allocations, summary), [LOOP_OPEN, NL],
      AllocatedStatesFragments(app.states, pa.allocations), [LOOP_CLOSE, NL]);
  }

  method EmitPrologue(app: App, pa: PinAllocator, summary: string, f: FileNode)
    modifies f
    ensures f.parts == old(f.parts) + AllocatedPrologue(app, pa.allocations, summary)
  {
    ghost var before := f.parts;
    var header := [AllocatedHeader(app, summary), NL];
    f.AppendAll(header);
    EmitSensorGlobals(app.bricks, f);
    f.Append(SETUP_OPEN);
    assert f.parts == before + header + SensorGlobalsFragments(app.bricks) + [SETUP_OPEN];
    EmitAllocatedSetup(app.bricks, pa, f);
    AppendAssoc4(before, header, SensorGlobalsFragments(app.bricks), [SETUP_OPEN],
      AllocatedSetupFragments(app.bricks, pa.allocations));
  }

  /** `generateInoFile` without the file system: the text is written only
      when `compile` returns, so an allocation error leaves nothing written. */
  method GenerateAllocatedIno(app: App) returns (r: Result<string, string>)
    requires Compilable(app)
    ensures r.Err? <==> CompileOutcome(app).Err?
    ensures r.Err? ==> r.error == CompileOutcome(app).error
    ensures r.Ok? ==> r.value == Concat(CompileOutcome(app).value)
  {
    var f := new FileNode();
    var error := CompileAllocated(app, f);
    if error.Some? {
      return Err(error.value);
    }
    assert f.parts == CompileOutcome(app).value;
    r := Ok(f.Text());
  }

  // ------------------------------------------------------------ properties

  /** A condition contributes no text exactly when its brick does not
      resolve; `Sensor` and `Actuator` bricks render alike. */
  lemma PieceSkippedIffUnresolved(c: Condition, allocations: map<Brick, int>)
    requires ConditionReadable(c)
    ensures AllocatedPiece(c, allocations).None? <==> c.brick.Unresolved?
    ensures c.brick.Resolved? && (c.brick.target.kind == Sensor || c.brick.target.kind == Actuator) ==>
      AllocatedPiece(c, allocations) == Some(DigitalReadText(PinOf(allocations, c.brick.target), c.value.value))
  {
  }

  /** Every `Sensor` brick gets its debounce globals. */
  lemma {:induction false} SensorGlobalsDeclared(bricks: seq<Brick>, b: Brick)
    requires b in bricks && b.kind == Sensor
    ensures DebounceGlobal(b.name, SENSOR_GLOBAL_INDENT) in SensorGlobalsFragments(bricks)
  {
    if b != bricks[|bricks| - 1] {
      assert b in bricks[..|bricks| - 1] by {
        var i :| 0 <= i < |bricks| && bricks[i] == b;
        assert bricks[..|bricks| - 1][i] == b;
      }
      SensorGlobalsDeclared(bricks[..|bricks| - 1], b);
    }
  }

  /** A `Sensor` brick's `setup()` line uses the pin `getPin` answers for it. */
  lemma {:induction false} SensorSetupUsesAllocatedPin(bricks: seq<Brick>, b: Brick, allocations: map<Brick, int>)
    requires b in bricks && b.kind == Sensor
    ensures SensorSetupLine(b, PinOf(allocations, b)) in AllocatedSetupFragments(bricks, allocations)
  {
    if b != bricks[|bricks| - 1] {
      assert b in bricks[..|bricks| - 1] by {
        var i :| 0 <= i < |bricks| && bricks[i] == b;
        assert bricks[..|bricks| - 1][i] == b;
      }
      SensorSetupUsesAllocatedPin(bricks[..|bricks| - 1], b, allocations);
    }
  }

  /** Once `compile` succeeds, a `Sensor` brick that declares no pin is set up
      on the positive pin the allocator drew for it. */
  lemma AutoSensorSetUpOnDrawnPin(app: App, b: Brick)
    requires Compilable(app)
    requires CompileOutcome(app).Ok?
    requires b in app.bricks && b.kind == Sensor && DeclaredPin(b).None?
    ensures b in AllocatePinsSpec(Init(false), app.bricks).st.allocations
    ensures AllocatePinsSpec(Init(false), app.bricks).st.allocations[b] >= 1
    ensures SensorSetupLine(b, AllocatePinsSpec(Init(false), app.bricks).st.allocations[b]) in CompileOutcome(app).value
  {
    var o := AllocatePinsSpec(Init(false), app.bricks);
    assert o.failed.None?;
    AutoPinsPositive(false, app.bricks);
    assert b in o.st.allocations && o.st.allocations[b] >= 1;
    var x := SensorSetupLine(b, o.st.allocations[b]);
    SensorSetupUsesAllocatedPin(app.bricks, b, o.st.allocations);
    assert PinOf(o.st.allocations, b) == o.st.allocations[b];
    InitFacts(false);
    ManualPassFacts(Init(false), app.bricks);
    AutoPassInv(ManualPass(Init(false), app.bricks), app.bricks);
    SetupInCompile(app, o.st.allocations, SummaryText(o.st), x);
    assert CompileOutcome(app).value == AllocatedCompileFragments(app, o.st.allocations, SummaryText(o.st));
  }

  lemma SetupInCompile(app: App, allocations: map<Brick, int>, summary: string, x: string)
    requires StatesReadable(app.states)
    requires x in AllocatedSetupFragments(app.bricks, allocations)
    ensures x in AllocatedCompileFragments(app, allocations, summary)
  {
    var front := [AllocatedHeader(app, summary), NL] + SensorGlobalsFragments(app.bricks) + [SETUP_OPEN];
    InRight(front, AllocatedSetupFragments(app.bricks, allocations), x);
    var p := AllocatedPrologue(app, allocations, summary);
    InLeft(p, [LOOP_OPEN, NL] + AllocatedStatesFragments(app.states, allocations) + [LOOP_CLOSE, NL], x);
  }

  lemma InLeft<T>(a: seq<T>, b: seq<T>, x: T)
    requires x in a
    ensures x in a + b
  {
    var i :| 0 <= i < |a| && a[i] == x;
    assert (a + b)[i] == x;
  }

  lemma InRight<T>(a: seq<T>, b: seq<T>, x: T)
    requires x in b
    ensures x in a + b
  {
    var i :| 0 <= i < |b| && b[i] == x;
    assert (a + b)[|a| + i] == x;
  }

  /** When the allocation fails, `compile` reports the first brick that
      could not be served and the file is never written. */
  lemma FailedAllocationWritesNothing(app: App)
    requires AllocatePinsSpec(Init(false), app.bricks).failed.Some?
    ensures Compilable(app) && CompileOutcome(app).Err?
    ensures exists k :: (0 <= k < |app.bricks|
      && FailsAt(ManualPass(Init(false), app.bricks), app.bricks, k)
      && CompileOutcome(app).error == AllocationError(app.bricks[k]))
  {
    AllocatePinsFailure(false, app.bricks);
  }
}
