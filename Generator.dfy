/** The Langium generator without pin allocation: it writes the header, the
    debounce globals, the `setup()` block and the `loop()` switch with one
    `case` per state into the output buffer, reading pins straight from the
    bricks. Each emitter appends to a `FileNode`; its contract says which
    fragments it appends, and the fragment functions below are what the
    lemmas speak about. */
module Generator {
  import opened Common
  import opened Ast
  import opened Guards
  import opened AnalogBricks

  // ------------------------------------------------------------ fixed text

  const SETUP_OPEN: string := "\n\tvoid setup(){"
  const LOOP_OPEN: string := "\n\t}\n\tvoid loop() {\n\t\t\tswitch(currentState){"
  const LOOP_CLOSE: string := "\n\t\t}\n\t}\n\t"
  const BREAK: string := "\n\t\t\t\tbreak;"
  const HEADER_INTRO: string := "\n//Wiring code generated from an ArduinoML model\n// Application name: "
  const ENUM_OPEN: string := "\n\nlong debounce = 200;\nenum STATE {"
  const ENUM_CLOSE: string := "};\n\nSTATE currentState = "

  /** The header: application name, debounce delay, the state enum listing
      the state names in order, and the initial state. */
  function Header(app: App): string
  {
    HEADER_INTRO + app.name + ENUM_OPEN + Join(StateNames(app.states), ", ")
    + ENUM_CLOSE + OptionText(app.initial) + ";"
  }

  function StateNames(states: seq<State>): seq<string>
  {
    seq(|states|, i requires 0 <= i < |states| => states[i].name)
  }

  /** The two globals that debounce one sensor; `indent` is the blank tail
      the template literal carries. */
  function DebounceGlobal(name: string, indent: string): string
  {
    "\nbool " + name + "BounceGuard = false;\nlong " + name + "LastDebounceTime = 0;\n\n" + indent
  }

  const GLOBAL_INDENT: string := "                "

  /** A brick gets debounce globals when it has an `inputPin` property and is
      not an `AnalogSensor`. */
  predicate NeedsDebounceGlobals(b: Brick)
  {
    !b.inputPin.Missing? && b.kind != AnalogSensor
  }

  function GlobalsFragments(bricks: seq<Brick>): seq<string>
  {
    if bricks == [] then []
    else
      GlobalsFragments(bricks[..|bricks| - 1])
      + (var b := bricks[|bricks| - 1];
         if NeedsDebounceGlobals(b) then [DebounceGlobal(b.name, GLOBAL_INDENT), NL] else [])
  }

  /** The `pinMode` line of `setup()`: bricks with an `inputPin` property are
      inputs, all others outputs; analog bricks get the analog compiler's
      lines, which differ only in their tag. */
  function SetupLine(b: Brick): string
  {
    if !b.inputPin.Missing? then
      if b.kind == AnalogSensor then AnalogSensorSetupLine(b)
      else "\n\t\tpinMode(" + NumberText(b.inputPin) + ", INPUT); // " + b.name + " [Sensor]"
    else
      if b.kind == AnalogActuator then AnalogActuatorSetupLine(b)
      else "\n\t\tpinMode(" + NumberText(b.outputPin) + ", OUTPUT); // " + b.name + " [Actuator]"
  }

  function SetupFragments(bricks: seq<Brick>): seq<string>
  {
    seq(|bricks|, i requires 0 <= i < |bricks| => SetupLine(bricks[i]))
  }

  // ------------------------------------------------------------ actions

  /** What one action emits: a `digitalWrite` when it names an actuator,
      otherwise what the analog compiler emits for it (the same text
      `compileAction` writes inline). */
  function ActionFragments(a: Action): seq<string>
  {
    if !a.actuator.NoLink? then
      [ActionWrite(a)]
    else AnalogActionFragments(a)
  }

  /** The `digitalWrite` of an action on its actuator's output pin. */
  function ActionWrite(a: Action): string
  {
    DigitalWrite(LinkedOutputPin(a.actuator), OptionText(a.value))
  }

  function DigitalWrite(pin: string, value: string): string
  {
    "\n\t\t\t\t\tdigitalWrite(" + pin + "," + value + ");"
  }

  function ActionsFragments(actions: seq<Action>): seq<string>
  {
    if actions == [] then []
    else ActionsFragments(actions[..|actions| - 1]) + ActionFragments(actions[|actions| - 1])
  }

  // ------------------------------------------------------------ transitions

  /** The text of one condition: an analog threshold test when the condition
      has an analog brick, an operator and a threshold; otherwise a digital
      read of the brick's `inputPin`, or of its `outputPin` when it has no
      `inputPin`; otherwise nothing. */
  function ConditionText(c: Condition): string
  {
    if IsAnalogCondition(c) then CompileAnalogCondition(c)
    else if c.brick.Resolved? && !c.brick.target.inputPin.Missing? then
      "digitalRead(" + NumberText(c.brick.target.inputPin) + ") == " + OptionText(c.value)
    else if c.brick.Resolved? && !c.brick.target.outputPin.Missing? then
      "digitalRead(" + NumberText(c.brick.target.outputPin) + ") == " + OptionText(c.value)
    else ""
  }

  /** Every condition contributes its text; none is skipped. */
  function ConditionPieces(conds: seq<Condition>): seq<Option<string>>
  {
    seq(|conds|, i requires 0 <= i < |conds| => Some(ConditionText(conds[i])))
  }

  function GuardLine(code: string, sensors: seq<Brick>): string
  {
    "\n\t\t\t\t\tif( (" + code + ")" + Debounce(sensors) + " ) {"
  }

  function DebounceUpdate(b: Brick): string
  {
    "\n\t\t\t\t\t\t" + b.name + "LastDebounceTime = millis();"
  }

  function DebounceUpdates(sensors: seq<Brick>): seq<string>
  {
    if sensors == [] then []
    else DebounceUpdates(sensors[..|sensors| - 1]) + [DebounceUpdate(sensors[|sensors| - 1])]
  }

  function NextStateLine(next: Option<string>): string
  {
    "\n\t\t\t\t\t\tcurrentState = " + OptionText(next) + ";\n\t\t\t\t\t}\n\t\t"
  }

  /** The guarded block of a transition: the guard, the debounce-time update
      of every debounced sensor, then the state change. */
  function TransitionFragments(t: Transition): seq<string>
  {
    var sensors := DebouncedSensors(t.conditions);
    [GuardLine(JoinConds(ConditionPieces(t.conditions), t.operators), sensors)]
    + DebounceUpdates(sensors)
    + [NextStateLine(t.next)]
  }

  function CaseLine(name: string): string
  {
    "\n\t\t\t\tcase " + name + ":"
  }

  function StateFragments(s: State): seq<string>
    requires s.transition.Some?
  {
    [CaseLine(s.name)] + ActionsFragments(s.actions) + TransitionFragments(s.transition.value) + [BREAK]
  }

  predicate AllHaveTransitions(states: seq<State>)
  {
    forall i :: 0 <= i < |states| ==> states[i].transition.Some?
  }

  function StatesFragments(states: seq<State>): seq<string>
    requires AllHaveTransitions(states)
  {
    if states == [] then []
    else StatesFragments(states[..|states| - 1]) + StateFragments(states[|states| - 1])
  }

  /** The whole output of `compile`. */
  function CompileFragments(app: App): seq<string>
    requires AllHaveTransitions(app.states)
  {
    Prologue(app) + [LOOP_OPEN, NL] + StatesFragments(app.states) + [LOOP_CLOSE, NL]
  }

  /** The header, the debounce globals and the `setup()` block. */
  function Prologue(app: App): seq<string>
  {
    [Header(app), NL] + GlobalsFragments(app.bricks) + [SETUP_OPEN] + SetupFragments(app.bricks)
  }

  // ------------------------------------------------------------ emitters

  /** Regrouping a concatenation of four pieces. */
  lemma AppendAssoc3<T>(a: seq<T>, b: seq<T>, c: seq<T>, d: seq<T>)
    ensures a + b + c + d == a + (b + c + d)
  {
  }

  lemma AppendAssoc<T>(a: seq<T>, b: seq<T>, c: seq<T>)
    ensures a + b + c == a + (b + c)
  {
  }

  lemma AppendAssoc4<T>(a: seq<T>, b: seq<T>, c: seq<T>, d: seq<T>, e: seq<T>)
    ensures a + b + c + d + e == a + (b + c + d + e)
  {
  }

  /** `compileAction`. */
  method CompileAction(a: Action, f: FileNode)
    modifies f
    ensures f.parts == old(f.parts) + ActionFragments(a)
  {
    if !a.actuator.NoLink? {
      f.Append(ActionWrite(a));
    } else {
      CompileAnalogAction(a, f);
    }
  }

  /** The condition-building loop of `compileTransition`. */
  method ConditionCode(conds: seq<Condition>, ops: seq<string>) returns (code: string)
    ensures code == JoinConds(ConditionPieces(conds), ops)
  {
    ghost var pieces := ConditionPieces(conds);
    code := "";
    var i := 0;
    while i < |conds|
      invariant 0 <= i <= |conds|
      invariant code == JoinConds(pieces[..i], ops)
    {
      var condStr := ConditionText(conds[i]);
      JoinCondsStep(pieces, ops, i, condStr);
      if i == 0 {
        code := condStr;
      } else {
        code := code + OpAt(ops, i - 1) + condStr;
      }
      i := i + 1;
    }
    assert pieces[..i] == pieces;
  }

  /** The debounce-time updates inside the guarded block. */
  method EmitDebounceUpdates(sensors: seq<Brick>, f: FileNode)
    modifies f
    ensures f.parts == old(f.parts) + DebounceUpdates(sensors)
  {
    var k := 0;
    while k < |sensors|
      invariant 0 <= k <= |sensors|
      invariant f.parts == old(f.parts) + DebounceUpdates(sensors[..k])
    {
      assert sensors[..k + 1][..k] == sensors[..k];
      f.Append(DebounceUpdate(sensors[k]));
      k := k + 1;
    }
    assert sensors[..k] == sensors;
  }

  /** `compileTransition`: collects the debounced sensors, builds the
      condition code left to right, then emits the guarded block. */
  method CompileTransition(t: Transition, f: FileNode)
    modifies f
    ensures f.parts == old(f.parts) + TransitionFragments(t)
  {
    var sensors := CollectSensors(t.conditions);
    var code := ConditionCode(t.conditions, t.operators);
    ghost var before := f.parts;
    var guard := GuardLine(code, sensors);
    var next := NextStateLine(t.next);
    f.Append(guard);
    EmitDebounceUpdates(sensors, f);
    f.Append(next);
    AppendAssoc3(before, [guard], DebounceUpdates(sensors), [next]);
  }

  /** The action loop of `compileState`. */
  method EmitActions(actions: seq<Action>, f: FileNode)
    modifies f
    ensures f.parts == old(f.parts) + ActionsFragments(actions)
  {
    var i := 0;
    while i < |actions|
      invariant 0 <= i <= |actions|
      invariant f.parts == old(f.parts) + ActionsFragments(actions[..i])
    {
      assert actions[..i + 1][..i] == actions[..i];
      CompileAction(actions[i], f);
      i := i + 1;
    }
    assert actions[..i] == actions;
  }

  /** `compileState`. A state without a transition is outside the contract:
      the source then hands `undefined` to `compileTransition`. */
  method CompileState(s: State, f: FileNode)
    requires s.transition.Some?
    modifies f
    ensures f.parts == old(f.parts) + StateFragments(s)
  {
    ghost var before := f.parts;
    var caseLine := CaseLine(s.name);
    f.Append(caseLine);
    EmitActions(s.actions, f);
    CompileTransition(s.transition.value, f);
    f.Append(BREAK);
    AppendAssoc4(before, [caseLine], ActionsFragments(s.actions), TransitionFragments(s.transition.value), [BREAK]);
  }

  /** The debounce globals loop of `compile`. */
  method EmitGlobals(bricks: seq<Brick>, f: FileNode)
    modifies f
    ensures f.parts == old(f.parts) + GlobalsFragments(bricks)
  {
    var i := 0;
    while i < |bricks|
      invariant 0 <= i <= |bricks|
      invariant f.parts == old(f.parts) + GlobalsFragments(bricks[..i])
    {
      assert bricks[..i + 1][..i] == bricks[..i];
      var b := bricks[i];
      if !b.inputPin.Missing? && b.kind != AnalogSensor {
        f.AppendAll([DebounceGlobal(b.name, GLOBAL_INDENT), NL]);
      }
      i := i + 1;
    }
    assert bricks[..i] == bricks;
  }

  /** The `setup()` loop of `compile`. */
  method EmitSetup(bricks: seq<Brick>, f: FileNode)
    modifies f
    ensures f.parts == old(f.parts) + SetupFragments(bricks)
  {
    var i := 0;
    while i < |bricks|
      invariant 0 <= i <= |bricks|
      invariant f.parts == old(f.parts) + SetupFragments(bricks[..i])
    {
      assert SetupFragments(bricks[..i + 1]) == SetupFragments(bricks[..i]) + [SetupLine(bricks[i])];
      f.Append(SetupLine(bricks[i]));
      i := i + 1;
    }
    assert bricks[..i] == bricks;
  }

  lemma StatesFragmentsSnoc(states: seq<State>, i: nat)
    requires AllHaveTransitions(states) && i < |states|
    ensures AllHaveTransitions(states[..i]) && AllHaveTransitions(states[..i + 1])
    ensures StatesFragments(states[..i + 1]) == StatesFragments(states[..i]) + StateFragments(states[i])
  {
    assert states[..i + 1][..i] == states[..i];
  }

  /** The `switch` loop of `compile`. */
  method EmitStates(states: seq<State>, f: FileNode)
    requires AllHaveTransitions(states)
    modifies f
    ensures f.parts == old(f.parts) + StatesFragments(states)
  {
    var i := 0;
    while i < |states|
      invariant 0 <= i <= |states|
      invariant f.parts == old(f.parts) + StatesFragments(states[..i])
    {
      StatesFragmentsSnoc(states, i);
      CompileState(states[i], f);
      AppendAssoc(old(f.parts), StatesFragments(states[..i]), StateFragments(states[i]));
      i := i + 1;
    }
    assert states[..i] == states;
  }

  /** `compile`. */
  method Compile(app: App, f: FileNode)
    requires AllHaveTransitions(app.states)
    modifies f
    ensures f.parts == old(f.parts) + CompileFragments(app)
  {
    ghost var before := f.parts;
    EmitPrologue(app, f);
    f.AppendAll([LOOP_OPEN, NL]);
    EmitStates(app.states, f);
    f.AppendAll([LOOP_CLOSE, NL]);
    AppendAssoc4(before, Prologue(app), [LOOP_OPEN, NL], StatesFragments(app.states), [LOOP_CLOSE, NL]);
  }

  method EmitPrologue(app: App, f: FileNode)
    modifies f
    ensures f.parts == old(f.parts) + Prologue(app)
  {
    ghost var before := f.parts;
    f.AppendAll([Header(app), NL]);
    EmitGlobals(app.bricks, f);
    f.Append(SETUP_OPEN);
    assert f.parts == before + [Header(app), NL] + GlobalsFragments(app.bricks) + [SETUP_OPEN];
    EmitSetup(app.bricks, f);
    AppendAssoc4(before, [Header(app), NL], GlobalsFragments(app.bricks), [SETUP_OPEN], SetupFragments(app.bricks));
  }

  /** `generateInoFile` without the file system: the text written is the
      concatenation of everything `compile` appended to a fresh node. */
  method GenerateIno(app: App) returns (text: string)
    requires AllHaveTransitions(app.states)
    ensures text == Concat(CompileFragments(app))
  {
    var f := new FileNode();
    Compile(app, f);
    assert f.parts == CompileFragments(app);
    text := f.Text();
  }

  // ------------------------------------------------------------ properties

  lemma {:induction false} DebounceUpdatesShape(sensors: seq<Brick>)
    ensures |DebounceUpdates(sensors)| == |sensors|
    ensures forall k :: 0 <= k < |sensors| ==> DebounceUpdates(sensors)[k] == DebounceUpdate(sensors[k])
  {
    if sensors != [] {
      DebounceUpdatesShape(sensors[..|sensors| - 1]);
    }
  }

  /** Where the parts of `[first] + middle + [last]` sit. */
  lemma Bracketed(first: string, middle: seq<string>, last: string)
    ensures var s := [first] + middle + [last];
      |s| == |middle| + 2 && s[0] == first && s[|s| - 1] == last
      && forall k :: 0 <= k < |middle| ==> s[k + 1] == middle[k]
  {
  }

  /** Inside the guarded block every debounced sensor gets its debounce-time
      update, in first-seen order, and only then does the state change. */
  lemma TransitionOrder(t: Transition)
    ensures |TransitionFragments(t)| == |DebouncedSensors(t.conditions)| + 2
    ensures TransitionFragments(t)[0]
      == GuardLine(JoinConds(ConditionPieces(t.conditions), t.operators), DebouncedSensors(t.conditions))
    ensures forall k :: 0 <= k < |DebouncedSensors(t.conditions)| ==>
      TransitionFragments(t)[k + 1] == DebounceUpdate(DebouncedSensors(t.conditions)[k])
    ensures TransitionFragments(t)[|TransitionFragments(t)| - 1] == NextStateLine(t.next)
  {
    var sensors := DebouncedSensors(t.conditions);
    var updates := DebounceUpdates(sensors);
    var guard := GuardLine(JoinConds(ConditionPieces(t.conditions), t.operators), sensors);
    DebounceUpdatesShape(sensors);
    Bracketed(guard, updates, NextStateLine(t.next));
  }

  /** When every action names a digital actuator, each action emits exactly
      one `digitalWrite`, in order. */
  lemma {:induction false} DigitalActionsInOrder(actions: seq<Action>)
    requires forall i :: 0 <= i < |actions| ==> !actions[i].actuator.NoLink?
    ensures |ActionsFragments(actions)| == |actions|
    ensures forall i :: 0 <= i < |actions| ==> ActionsFragments(actions)[i] == ActionWrite(actions[i])
  {
    if actions != [] {
      var init := actions[..|actions| - 1];
      var last := actions[|actions| - 1];
      assert forall i :: 0 <= i < |init| ==> init[i] == actions[i];
      DigitalActionsInOrder(init);
      var fs := ActionsFragments(init);
      assert ActionsFragments(actions) == fs + [ActionWrite(last)];
      assert actions == init + [last];
      WritesSnoc(init, last, fs);
    }
  }

  lemma WritesSnoc(init: seq<Action>, last: Action, fs: seq<string>)
    requires |fs| == |init| && forall i :: 0 <= i < |init| ==> fs[i] == ActionWrite(init[i])
    ensures forall i :: 0 <= i < |init| + 1 ==> (fs + [ActionWrite(last)])[i] == ActionWrite((init + [last])[i])
  {
    forall i | 0 <= i < |init| + 1
      ensures (fs + [ActionWrite(last)])[i] == ActionWrite((init + [last])[i])
    {
      if i < |init| {
        assert (init + [last])[i] == init[i];
      }
    }
  }

  /** An action emits at most one statement, and none exactly when it names
      no actuator and no complete analog write. */
  lemma ActionEmitsAtMostOne(a: Action)
    ensures |ActionFragments(a)| <= 1
    ensures ActionFragments(a) == [] <==>
      a.actuator.NoLink?
      && (a.analogActuator.NoLink? || a.analogValue.None?
          || (a.analogValue.value.intValue.None? && a.analogValue.value.sensorValue.NoLink?))
  {
  }

  /** A brick that has an `inputPin` and is not an analog sensor gets its
      debounce globals. */
  lemma {:induction false} GlobalsDeclared(bricks: seq<Brick>, b: Brick)
    requires b in bricks && NeedsDebounceGlobals(b)
    ensures DebounceGlobal(b.name, GLOBAL_INDENT) in GlobalsFragments(bricks)
  {
    var last := bricks[|bricks| - 1];
    if b != last {
      assert b in bricks[..|bricks| - 1] by {
        var i :| 0 <= i < |bricks| && bricks[i] == b;
        assert i < |bricks| - 1;
        assert bricks[..|bricks| - 1][i] == b;
      }
      GlobalsDeclared(bricks[..|bricks| - 1], b);
    }
  }

  /** Every debounce global belongs to such a brick; the other fragments are
      line breaks. */
  lemma {:induction false} GlobalsOnlyForDebounced(bricks: seq<Brick>, x: string)
    requires x in GlobalsFragments(bricks)
    ensures x == NL || exists b :: b in bricks && NeedsDebounceGlobals(b) && x == DebounceGlobal(b.name, GLOBAL_INDENT)
  {
    var init := bricks[..|bricks| - 1];
    var b := bricks[|bricks| - 1];
    if x in GlobalsFragments(init) {
      GlobalsOnlyForDebounced(init, x);
      if x != NL {
        var c :| c in init && NeedsDebounceGlobals(c) && x == DebounceGlobal(c.name, GLOBAL_INDENT);
        assert c in bricks;
      }
    }
  }

  /** A state block opens with its `case` label and closes with `break`. */
  lemma StateBlockBounds(s: State)
    requires s.transition.Some?
    ensures var r := StateFragments(s);
            |r| >= 4 && r[0] == CaseLine(s.name) && r[|r| - 1] == BREAK
  {
    TransitionOrder(s.transition.value);
  }

  /** The `enum STATE` of the header lists the states in declaration order. */
  lemma EnumListsStatesInOrder(app: App, i: nat, j: nat)
    requires i < j < |app.states|
    ensures OccursBefore(Header(app), app.states[i].name, app.states[j].name)
  {
    var names := StateNames(app.states);
    var before := HEADER_INTRO + app.name + ENUM_OPEN;
    var after := ENUM_CLOSE + OptionText(app.initial) + ";";
    JoinKeepsOrder(names, ", ", i, j);
    OccursBeforeInside(before, Join(names, ", "), after, names[i], names[j]);
    assert names[i] == app.states[i].name && names[j] == app.states[j].name;
    assert Header(app) == before + Join(names, ", ") + after;
  }

  /** The condition code holds the text of every condition of the
      transition and starts with the text of the first one. */
  lemma ConditionCodeShape(conds: seq<Condition>, ops: seq<string>)
    requires |conds| >= 1
    ensures ConditionText(conds[0]) <= JoinConds(ConditionPieces(conds), ops)
    ensures forall k :: 0 <= k < |conds| ==>
      Contains(JoinConds(ConditionPieces(conds), ops), ConditionText(conds[k]))
  {
    var pieces := ConditionPieces(conds);
    JoinCondsStartsWithFirst(pieces, ops);
    forall k | 0 <= k < |conds|
      ensures Contains(JoinConds(pieces, ops), ConditionText(conds[k]))
    {
      JoinCondsMentions(pieces, ops, k);
    }
  }

  /** `setup()` ends the prologue with one `pinMode` line per brick, in
      declaration order. */
  lemma SetupLinesInOrder(app: App)
    ensures |Prologue(app)| == 3 + |GlobalsFragments(app.bricks)| + |app.bricks|
    ensures forall k :: 0 <= k < |app.bricks| ==>
      Prologue(app)[3 + |GlobalsFragments(app.bricks)| + k] == SetupLine(app.bricks[k])
  {
    var front := [Header(app), NL] + GlobalsFragments(app.bricks) + [SETUP_OPEN];
    var lines := SetupFragments(app.bricks);
    assert Prologue(app) == front + lines;
    forall k | 0 <= k < |app.bricks|
      ensures Prologue(app)[|front| + k] == SetupLine(app.bricks[k])
    {
      assert Prologue(app)[|front| + k] == lines[k];
    }
  }
}
