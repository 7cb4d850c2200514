/** The multi-machine back end: the configuration check that an app has
    either a `states` section or a `machines` section, the header with one
    state enum, current state and last-run time per machine, the loop that
    gives every machine its own period guard, and the state-change line.
    The loop also gets an abstract tick model of the guard it emits. */
module MultiMachine {
  import opened Common
  import opened Ast

  // ------------------------------------------------------------ configuration

  predicate HasMultipleMachines(app: App)
  {
    |app.machines| > 0
  }

  predicate HasSingleMachine(app: App)
  {
    |app.states| > 0
  }

  const MIXED_SECTIONS: string := "Cannot mix 'states' and 'machines' sections in the same app"
  const NO_SECTION: string := "App must have either 'states' section or 'machines' section"

  /** `validateMachineConfiguration`: `None` when it returns normally, the
      message of the error it throws otherwise. */
  function ValidateMachineConfiguration(app: App): (r: Option<string>)
    ensures r.None? <==> (|app.states| > 0) != (|app.machines| > 0)
    ensures r == Some(MIXED_SECTIONS) <==> |app.states| > 0 && |app.machines| > 0
    ensures r == Some(NO_SECTION) <==> app.states == [] && app.machines == []
  {
    var single := HasSingleMachine(app);
    var multiple := HasMultipleMachines(app);
    if single && multiple then Some(MIXED_SECTIONS)
    else if !single && !multiple then Some(NO_SECTION)
    else None
  }

  // ------------------------------------------------------------ header

  function MultiHeaderOpen(app: App): string
  {
    "\n//Wiring code generated from an ArduinoML model\n// Application name: " + app.name + "\n\nlong debounce = 200;\n"
  }

  /** `${s.name}_${machine.name}`: a state's name qualified by its machine. */
  function Qualified(stateName: string, machineName: string): string
  {
    stateName + "_" + machineName
  }

  function QualifiedStateNames(m: Machine): seq<string>
  {
    seq(|m.states|, i requires 0 <= i < |m.states| => Qualified(m.states[i].name, m.name))
  }

  /** The declarations of one machine: its enum, its current state set to
      its initial state, and its last-run time set to 0. */
  function MachineDeclarations(m: Machine): string
  {
    "\nenum STATE_" + m.name + " {" + Join(QualifiedStateNames(m), ", ") + "};\nSTATE_" + m.name
    + " currentState_" + m.name + " = " + Qualified(OptionText(m.initial), m.name)
    + ";\nunsigned long lastRun_" + m.name + " = 0;\n"
  }

  function HeaderFragments(app: App): seq<string>
  {
    [MultiHeaderOpen(app), NL] + MachinesDeclarations(app.machines)
  }

  function MachinesDeclarations(machines: seq<Machine>): seq<string>
  {
    if machines == [] then []
    else MachinesDeclarations(machines[..|machines| - 1]) + [MachineDeclarations(machines[|machines| - 1]), NL]
  }

  // ------------------------------------------------------------ loop

  const LOOP_START: string := "\n\tvoid loop() {\n\t\tunsigned long currentMillis = millis();\n\t"
  const MACHINE_CLOSE: string := "\n\t\t\t}\n\t\t}\n\t\t"
  const LOOP_END: string := "\n\t}\n\t"

  /** The period guard of one machine, which also stamps its last-run time
      and opens the switch over its current state. */
  function MachineGuard(m: Machine): string
  {
    "\n\n        if (currentMillis - lastRun_" + m.name + " >= " + IntToString(m.period)
    + ") {\n            lastRun_" + m.name + " = currentMillis;\n            switch(currentState_" + m.name + ") {"
  }

  /** What the state callback appends for every state of one machine, called
      with that machine's name. The callback is a parameter: its own output
      is not part of this file. */
  function StateCalls(states: seq<State>, machineName: string, render: (State, string) -> seq<string>): seq<string>
  {
    if states == [] then []
    else StateCalls(states[..|states| - 1], machineName, render) + render(states[|states| - 1], machineName)
  }

  function MachineBlock(m: Machine, render: (State, string) -> seq<string>): seq<string>
  {
    [MachineGuard(m), NL] + StateCalls(m.states, m.name, render) + [MACHINE_CLOSE, NL]
  }

  function MachineBlocks(machines: seq<Machine>, render: (State, string) -> seq<string>): seq<string>
  {
    if machines == [] then []
    else MachineBlocks(machines[..|machines| - 1], render) + MachineBlock(machines[|machines| - 1], render)
  }

  function LoopFragments(app: App, render: (State, string) -> seq<string>): seq<string>
  {
    [LOOP_START, NL] + MachineBlocks(app.machines, render) + [LOOP_END, NL]
  }

  /** `generateMachineStateTransition`. */
  function StateTransitionLine(machineName: string, nextStateName: string): string
  {
    "\n\t\t\t\t\t\tcurrentState_" + machineName + " = " + nextStateName + ";"
  }

  // ------------------------------------------------------------ emitters

  /** `generateMachineStateTransition`: one line that moves the named
      machine to the next state. */
  method GenerateMachineStateTransition(machineName: string, nextStateName: string, f: FileNode)
    modifies f
    ensures f.parts == old(f.parts) + [StateTransitionLine(machineName, nextStateName)]
  {
    f.Append(StateTransitionLine(machineName, nextStateName));
  }

  lemma AppendAssoc<T>(a: seq<T>, b: seq<T>, c: seq<T>)
    ensures a + b + c == a + (b + c)
  {
  }

  lemma AppendAssoc3<T>(a: seq<T>, b: seq<T>, c: seq<T>, d: seq<T>)
    ensures a + b + c + d == a + (b + c + d)
  {
  }

  /** `generateMultiMachineHeader`. */
  method GenerateMultiMachineHeader(app: App, f: FileNode)
    modifies f
    ensures f.parts == old(f.parts) + HeaderFragments(app)
  {
    ghost var before := f.parts;
    f.AppendAll([MultiHeaderOpen(app), NL]);
    EmitMachinesDeclarations(app.machines, f);
    AppendAssoc(before, [MultiHeaderOpen(app), NL], MachinesDeclarations(app.machines));
  }

  /** The machine loop of `generateMultiMachineHeader`. */
  method EmitMachinesDeclarations(machines: seq<Machine>, f: FileNode)
    modifies f
    ensures f.parts == old(f.parts) + MachinesDeclarations(machines)
  {
    var i := 0;
    while i < |machines|
      invariant 0 <= i <= |machines|
      invariant f.parts == old(f.parts) + MachinesDeclarations(machines[..i])
    {
      assert machines[..i + 1][..i] == machines[..i];
      f.AppendAll([MachineDeclarations(machines[i]), NL]);
      AppendAssoc(old(f.parts), MachinesDeclarations(machines[..i]), [MachineDeclarations(machines[i]), NL]);
      i := i + 1;
    }
    assert machines[..i] == machines;
  }

  /** The state loop of one machine: the callback, once per state. */
  method EmitStateCalls(m: Machine, render: (State, string) -> seq<string>, f: FileNode)
    modifies f
    ensures f.parts == old(f.parts) + StateCalls(m.states, m.name, render)
  {
    var i := 0;
    while i < |m.states|
      invariant 0 <= i <= |m.states|
      invariant f.parts == old(f.parts) + StateCalls(m.states[..i], m.name, render)
    {
      assert m.states[..i + 1][..i] == m.states[..i];
      f.AppendAll(render(m.states[i], m.name));
      i := i + 1;
    }
    assert m.states[..i] == m.states;
  }

  method EmitMachineBlock(m: Machine, render: (State, string) -> seq<string>, f: FileNode)
    modifies f
    ensures f.parts == old(f.parts) + MachineBlock(m, render)
  {
    ghost var before := f.parts;
    f.AppendAll([MachineGuard(m), NL]);
    EmitStateCalls(m, render, f);
    f.AppendAll([MACHINE_CLOSE, NL]);
    AppendAssoc3(before, [MachineGuard(m), NL], StateCalls(m.states, m.name, render), [MACHINE_CLOSE, NL]);
  }

  /** One more machine block extends the blocks of the first `i` machines. */
  lemma BlocksStep(start: seq<string>, machines: seq<Machine>, i: nat, render: (State, string) -> seq<string>,
                   done: seq<string>)
    requires i < |machines| && done == start + MachineBlocks(machines[..i], render)
    ensures done + MachineBlock(machines[i], render) == start + MachineBlocks(machines[..i + 1], render)
  {
    assert machines[..i + 1][..i] == machines[..i];
    AppendAssoc(start, MachineBlocks(machines[..i], render), MachineBlock(machines[i], render));
  }

  /** The machine loop of `generateMultiMachineLoop`. */
  method EmitMachineBlocks(machines: seq<Machine>, render: (State, string) -> seq<string>, f: FileNode)
    modifies f
    ensures f.parts == old(f.parts) + MachineBlocks(machines, render)
  {
    var i := 0;
    while i < |machines|
      invariant 0 <= i <= |machines|
      invariant f.parts == old(f.parts) + MachineBlocks(machines[..i], render)
    {
      ghost var done := f.parts;
      EmitMachineBlock(machines[i], render, f);
      BlocksStep(old(f.parts), machines, i, render, done);
      i := i + 1;
    }
    assert machines[..i] == machines;
  }

  /** `generateMultiMachineLoop`. */
  method GenerateMultiMachineLoop(app: App, render: (State, string) -> seq<string>, f: FileNode)
    modifies f
    ensures f.parts == old(f.parts) + LoopFragments(app, render)
  {
    ghost var before := f.parts;
    f.AppendAll([LOOP_START, NL]);
    EmitMachineBlocks(app.machines, render, f);
    f.AppendAll([LOOP_END, NL]);
    AppendAssoc3(before, [LOOP_START, NL], MachineBlocks(app.machines, render), [LOOP_END, NL]);
  }

  // ------------------------------------------------------------ properties of the text

  /** The state-change line assigns the machine's own current-state
      variable, and the next state's text appears in it verbatim, right
      before the closing `;`. */
  lemma StateTransitionText(machineName: string, nextStateName: string)
    ensures var l := StateTransitionLine(machineName, nextStateName);
      && Contains(l, "currentState_" + machineName + " = " + nextStateName + ";")
      && |nextStateName| + 1 <= |l| && l[|l| - |nextStateName| - 1..|l| - 1] == nextStateName
  {
    var l := StateTransitionLine(machineName, nextStateName);
    var sub := "currentState_" + machineName + " = " + nextStateName + ";";
    assert l == "\n\t\t\t\t\t\t" + sub;
    assert ContainsAt(l, sub, 7);
  }

  lemma {:induction false} StateCallsShape(states: seq<State>, machineName: string, render: (State, string) -> seq<string>)
    requires forall s :: |render(s, machineName)| == 1
    ensures |StateCalls(states, machineName, render)| == |states|
    ensures forall i :: 0 <= i < |states| ==>
      StateCalls(states, machineName, render)[i] == render(states[i], machineName)[0]
  {
    if states != [] {
      StateCallsShape(states[..|states| - 1], machineName, render);
    }
  }

  /** With a callback that appends one fragment, every state of a machine is
      rendered exactly once, in order, with that machine's name, between the
      machine's guard and its closing braces. */
  lemma MachineBlockShape(m: Machine, render: (State, string) -> seq<string>)
    requires forall s :: |render(s, m.name)| == 1
    ensures var r := MachineBlock(m, render);
      && |r| == |m.states| + 4
      && r[0] == MachineGuard(m)
      && (forall i :: 0 <= i < |m.states| ==> r[i + 2] == render(m.states[i], m.name)[0])
      && r[|r| - 2] == MACHINE_CLOSE
  {
    StateCallsShape(m.states, m.name, render);
  }

  lemma {:induction false} MachineBlocksCount(machines: seq<Machine>, render: (State, string) -> seq<string>)
    ensures |MachineBlocks(machines, render)| >= 4 * |machines|
  {
    if machines != [] {
      MachineBlocksCount(machines[..|machines| - 1], render);
    }
  }

  /** One declaration block per machine, in declaration order. */
  lemma {:induction false} DeclarationsInOrder(machines: seq<Machine>)
    ensures |MachinesDeclarations(machines)| == 2 * |machines|
    ensures forall i :: 0 <= i < |machines| ==>
      MachinesDeclarations(machines)[2 * i] == MachineDeclarations(machines[i])
  {
    if machines != [] {
      DeclarationsInOrder(machines[..|machines| - 1]);
    }
  }

  /** A machine's `enum` lists its qualified state names in declaration
      order. */
  lemma MachineEnumInOrder(m: Machine, i: nat, j: nat)
    requires i < j < |m.states|
    ensures OccursBefore(MachineDeclarations(m), Qualified(m.states[i].name, m.name), Qualified(m.states[j].name, m.name))
  {
    var names := QualifiedStateNames(m);
    var after := "};\nSTATE_" + m.name + " currentState_" + m.name + " = " + Qualified(OptionText(m.initial), m.name)
      + ";\nunsigned long lastRun_" + m.name + " = 0;\n";
    var before := "\nenum STATE_" + m.name + " {";
    JoinKeepsOrder(names, ", ", i, j);
    OccursBeforeInside(before, Join(names, ", "), after, names[i], names[j]);
    assert names[i] == Qualified(m.states[i].name, m.name) && names[j] == Qualified(m.states[j].name, m.name);
    assert MachineDeclarations(m) == before + Join(names, ", ") + after;
  }

  // ------------------------------------------------------------ tick model

  /** The guard's effect on one machine over the ticks `1..t`: how often it
      dispatched and the last-run time it stamped. `millis()` is the tick. */
  function Run(period: int, t: nat): (nat, nat)
  {
    if t == 0 then (0, 0)
    else
      var (count, lastRun) := Run(period, t - 1);
      if t - lastRun >= period then (count + 1, t) else (count, lastRun)
  }

  /** The stamped time is the last multiple of the period reached so far. */
  lemma {:induction false} RunBounds(period: int, t: nat)
    requires period >= 1
    ensures Run(period, t).1 == Run(period, t).0 * period
    ensures Run(period, t).0 * period <= t < (Run(period, t).0 + 1) * period
  {
    if t > 0 {
      RunBounds(period, t - 1);
      var c := Run(period, t - 1).0;
      assert (c + 1) * period == c * period + period;
      assert (c + 2) * period == (c + 1) * period + period;
    }
  }

  lemma MulCancelLess(a: int, b: int, period: int)
    requires period >= 1 && a * period < b * period
    ensures a < b
  {
    assert (b - a) * period > 0;
  }

  lemma DivUnique(t: nat, period: int, c: nat)
    requires period >= 1 && c * period <= t < (c + 1) * period
    ensures t / period == c
  {
    var q := t / period;
    assert t == q * period + t % period;
    MulCancelLess(q, c + 1, period);
    MulCancelLess(c, q + 1, period);
  }

  /** With `lastRun` starting at 0, a machine with a positive period
      dispatches `t / period` times over the ticks `1..t`, last at the
      largest multiple of its period. */
  lemma RunCount(period: int, t: nat)
    requires period >= 1
    ensures Run(period, t) == (t / period, (t / period) * period)
  {
    RunBounds(period, t);
    DivUnique(t, period, Run(period, t).0);
  }

  /** One tick of the emitted loop for every machine at once: each machine
      consults only its own last-run time. */
  function TickAll(periods: seq<int>, counts: seq<nat>, lastRuns: seq<nat>, t: nat): (seq<nat>, seq<nat>)
    requires |counts| == |periods| && |lastRuns| == |periods|
  {
    (seq(|periods|, i requires 0 <= i < |periods| =>
       if t - lastRuns[i] >= periods[i] then counts[i] + 1 else counts[i]),
     seq(|periods|, i requires 0 <= i < |periods| =>
       if t - lastRuns[i] >= periods[i] then t else lastRuns[i]))
  }

  function RunAll(periods: seq<int>, t: nat): (r: (seq<nat>, seq<nat>))
    ensures |r.0| == |periods| && |r.1| == |periods|
  {
    if t == 0 then (seq(|periods|, i => 0), seq(|periods|, i => 0))
    else
      var (counts, lastRuns) := RunAll(periods, t - 1);
      TickAll(periods, counts, lastRuns, t)
  }

  /** Machines do not interfere: running all of them together gives each
      exactly the dispatches it would have alone. */
  lemma {:induction false} RunAllIndependent(periods: seq<int>, t: nat, i: nat)
    requires i < |periods|
    ensures RunAll(periods, t).0[i] == Run(periods[i], t).0
    ensures RunAll(periods, t).1[i] == Run(periods[i], t).1
  {
    if t > 0 {
      RunAllIndependent(periods, t - 1, i);
    }
  }

  /** Hence machine `i` dispatches `t / period` times over `1..t`. */
  lemma MachineDispatches(periods: seq<int>, t: nat, i: nat)
    requires i < |periods| && periods[i] >= 1
    ensures RunAll(periods, t).0[i] == t / periods[i]
  {
    RunAllIndependent(periods, t, i);
    RunCount(periods[i], t);
  }
}
