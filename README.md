# ArduinoML code generation and DSL front ends, modelled in Dafny

ArduinoML turns a small state-machine description of an Arduino program
(bricks wired to pins, states with actions, guarded transitions) into an
Arduino `.ino` sketch. This project models the deterministic core of three
of its front ends and proves properties of the model.

- **Langium back end.**
  - `Pins`: the pin allocator. Its fixed pools are digital, PWM and analog, with an LCD reservation. A manual pass records declared pins and removes them from every pool. An automatic pass draws the head of the pool that matches each remaining brick. It fails with an error that names the brick.
  - `Generator`, with the guard logic shared in `Guards`: the sketch generator. It emits globals, setup, one `case` per state, and a guard per transition whose condition join and debounce conjunct are built from the transition's conditions.
  - `AllocatedGenerator`: the generator variant that runs the allocator first and takes every pin from it.
  - `MultiMachine`, `AnalogBricks`, `SerialBricks`, `TemperatureBricks`, `Lcd`: the per-category compilers.
  - `LangiumValidator`: the two language-server checks. One is the app-name capital; the other is the LCD length estimate against 16.
  - The generator's output buffer is the class `Ast.FileNode`, an append-only sequence of text fragments. The sketch is their concatenation.
- **Python method-chaining API.**
  - `PyModel`: the composite condition tree (`SensorCondition`, `AndCondition`, `OrCondition`, `NotCondition`) rendered to C text, and `Transition` with its condition default.
  - `PyBuilders`: `ConditionBuilder` and `StateBuilder`, including the two-step build that raises `UndefinedBrick` or `UndefinedState`.
- **Python DSL front end.**
  - `BnfLexer`: the priority-ordered lexer.
  - `BnfParser`: the recursive-descent parser with its token cursor, `ParseNode.to_dict`, and `validate`.
  - `SemanticValidator`: the visitor that collects errors.
  - `DslExtract`: the line-oriented extraction of the `AppBuilder(...)` chain from Python source. It is shared by the BNF parser (lines joined with `""`) and the Lark front end (lines joined with `" "`).

Where the source updates state step by step, the model is imperative: classes with fields, `modifies` clauses and loops with invariants. Each method is proved against a specification function, and the properties are lemmas about those functions.

## Model

| member | source | states |
|---|---|---|
| Pins.Without | langium/ArduinoML/src/cli/pin-allocator.ts:147-152 | filtering a pool keeps exactly the pins other than the one marked used |
| Pins.WithoutNoDup | langium/ArduinoML/src/cli/pin-allocator.ts:147-152 | filtering keeps a duplicate-free pool duplicate-free |
| Pins.PinAllocator.constructor | langium/ArduinoML/src/cli/pin-allocator.ts:37-54 | with an LCD the digital pool is [8, 9, 10] and the PWM pool [1]; without one both are copies of the constants; the analog pool is always full; no allocations |
| Pins.LcdDigitalPool | langium/ArduinoML/src/cli/pin-allocator.ts:40-44 | removing the LCD-reserved pins leaves 8, 9 and 10 of the digital pool |
| Pins.LcdPwmPool | langium/ArduinoML/src/cli/pin-allocator.ts:45-47 | removing the LCD-reserved pins leaves only pin 1 of the PWM pool |
| Pins.InitFacts | langium/ArduinoML/src/cli/pin-allocator.ts:37-54 | a fresh allocator has duplicate-free pools, no allocations and is consistent |
| Pins.InitPositive | langium/ArduinoML/src/cli/pin-allocator.ts:21-27 | every pool of a fresh allocator holds only pins >= 1 |
| Pins.PinAllocator.AllocateFromPool | langium/ArduinoML/src/cli/pin-allocator.ts:140-145 | an empty pool gives -1 and changes nothing; otherwise the pool's first pin is returned and removed from that pool only |
| Pins.PinAllocator.AllocatePin | langium/ArduinoML/src/cli/pin-allocator.ts:112-138 | the pool is chosen by the brick's kind and actuator/sensor type; a brick of any other kind gets -1 and changes nothing |
| Pins.AutoPinFails | langium/ArduinoML/src/cli/pin-allocator.ts:112-145 | the automatic pin is -1 iff the brick has no pool or its pool is empty |
| Pins.PinAllocator.MarkPinAsUsed | langium/ArduinoML/src/cli/pin-allocator.ts:147-152 | afterwards the pin is in none of the three pools, which are otherwise filtered in order |
| Pins.PinAllocator.ManualAllocate | langium/ArduinoML/src/cli/pin-allocator.ts:62-70 | one step of the manual pass: `outputPin` before `inputPin`, recorded and marked used |
| Pins.ManualPassFacts | langium/ArduinoML/src/cli/pin-allocator.ts:62-70 | after the manual pass exactly the bricks with a declared pin are recorded, each at its declared pin, and that pin is in no pool |
| Pins.PinAllocator.AutoAllocate | langium/ArduinoML/src/cli/pin-allocator.ts:73-81 | one step of the automatic pass; `failed` is set exactly when the brick needed a pin and none could be drawn |
| Pins.AutoPassInv | langium/ArduinoML/src/cli/pin-allocator.ts:73-81 | a successful automatic pass allocates every brick it is given, allocates no other brick, and keeps the pool invariant |
| Pins.AutoPassCovers | langium/ArduinoML/src/cli/pin-allocator.ts:73-81 | a successful automatic pass gives every brick an entry |
| Pins.AutoPassKeys | langium/ArduinoML/src/cli/pin-allocator.ts:73-81 | the automatic pass only adds entries for the bricks it was handed |
| Pins.AutoPassStopped | langium/ArduinoML/src/cli/pin-allocator.ts:76-78 | once the pass has thrown, later bricks change nothing |
| Pins.AutoPassStops | langium/ArduinoML/src/cli/pin-allocator.ts:73-81 | a failed automatic pass fails at one brick, after every earlier brick succeeded |
| Pins.AutoPassNoPool | langium/ArduinoML/src/cli/pin-allocator.ts:112-138 | a brick without a pool that holds no pin makes the automatic pass fail |
| Pins.PinAllocator.AllocatePins | langium/ArduinoML/src/cli/pin-allocator.ts:60-84 | the new state is the manual pass followed by the automatic pass; success returns the allocations; failure returns the error naming the brick |
| Pins.AllocatePinsSound | langium/ArduinoML/src/cli/pin-allocator.ts:60-84 | on success exactly the given bricks are allocated, each once in the summary order; declared pins are kept; no automatic pin equals a declared one; bricks drawn from the same pool get distinct pins |
| Pins.AllocatePinsFailure | langium/ArduinoML/src/cli/pin-allocator.ts:73-78 | a failed allocation names a brick at which the automatic pass fails |
| Pins.UnpooledBrickFails | langium/ArduinoML/src/cli/pin-allocator.ts:73-78 | a brick with no declared pin and no pool makes `allocatePins` throw |
| Pins.AutoPinsPositive | langium/ArduinoML/src/cli/pin-allocator.ts:73-81 | every automatically allocated pin is >= 1 |
| Pins.AnalogPoolsOverlap | langium/ArduinoML/src/cli/pin-allocator.ts:24-27 | an analog actuator and an analog sensor without declared pins both get pin 1, so pins are not globally distinct |
| Pins.PinAllocator.GetPin | langium/ArduinoML/src/cli/pin-allocator.ts:157-159 | the recorded pin; -1 for an unrecorded brick and, through `\|\| -1`, for a recorded pin 0 |
| Pins.PinAllocator.GetAllocationSummary | langium/ArduinoML/src/cli/pin-allocator.ts:89-101 | the header line followed by one line per allocation in insertion order, joined by newlines |
| Pins.SummaryLinesSnoc | langium/ArduinoML/src/cli/pin-allocator.ts:93-98 | one more allocation adds exactly one summary line, at the end |
| Guards.ReferencedSensors | langium/ArduinoML/src/cli/generator.ts:240-247 | every `Sensor` brick referenced by a condition is collected, and only sensors |
| Guards.DedupMembers | langium/ArduinoML/src/cli/generator.ts:243-245 | the `includes` test keeps exactly the elements of the input |
| Guards.DedupNoDup | langium/ArduinoML/src/cli/generator.ts:243-245 | the `includes` test keeps each element once |
| Guards.DedupFirstSeenOrder | langium/ArduinoML/src/cli/generator.ts:243-245 | kept elements appear in the order of their first occurrence |
| Guards.CollectSensors | langium/ArduinoML/src/cli/generator.ts:239-247 | the sensor loop computes the distinct referenced sensors in first-seen order |
| Guards.DebouncedSensorsSpec | langium/ArduinoML/src/cli/generator.ts:239-247 | the debounce list holds each referenced `Sensor` exactly once and nothing else |
| Guards.JoinCondsStep | langium/ArduinoML/src/cli/generator.ts:275-280 | condition i > 0 is appended after the text so far with the operator chosen from `operator[i-1]` |
| Guards.JoinCondsExtends | langium/ArduinoML/src/cli/generator.ts:251-281 | the loop only appends: the code of the first n conditions is a prefix of the final code |
| Guards.JoinCondsMentions | langium/ArduinoML/src/cli/generator.ts:251-281 | the text of every condition that is not skipped occurs in the code |
| Guards.JoinCondsStartsWithFirst | langium/ArduinoML/src/cli/generator.ts:275-276 | when the first condition is not skipped, the code starts with its text, not with an operator |
| Guards.JoinCondsUniform | langium/ArduinoML/src/cli/generator.ts:250-281 | with one operator throughout, the condition code is the pieces joined by it, left to right, without inner parentheses |
| Guards.AllAndJoin | langium/ArduinoML/src/cli/generator.ts:278 | all `and` operators join the conditions with ` && ` |
| Guards.NoAndJoin | langium/ArduinoML/src/cli/generator.ts:278 | any operator other than `and` gives ` \|\| ` |
| Guards.SkippedFirstCondition | langium/ArduinoML/out/cli/generator.js:131-154 | when the first condition is skipped, the code starts with the operator of the second |
| Guards.AllSkipped | langium/ArduinoML/out/cli/generator.js:131-155 | when every condition is skipped, the condition code is empty |
| Guards.DebounceClausesInOrder | langium/ArduinoML/src/cli/generator.ts:284-292 | for sensors i < j, sensor i's `millis() - XLastDebounceTime > debounce` clause occurs in the conjunct before sensor j's |
| Guards.Debounce | langium/ArduinoML/src/cli/generator.ts:284-293 | the debounce conjunct is empty iff there is no sensor |
| Guards.DebounceMentionsEvery | langium/ArduinoML/src/cli/generator.ts:284-293 | the conjunct contains the clause of every sensor |
| Generator.EnumListsStatesInOrder | langium/ArduinoML/src/cli/generator.ts:42-45 | for states i < j, state i's name occurs in the header before state j's |
| Generator.ConditionCodeShape | langium/ArduinoML/src/cli/generator.ts:250-281 | the condition code starts with the first condition's text and contains the text of every condition |
| Generator.ConditionCode | langium/ArduinoML/src/cli/generator.ts:250-281 | the condition loop computes the left-to-right operator join of the condition texts |
| Generator.CompileAction | langium/ArduinoML/src/cli/generator.ts:177-212 | appends exactly the action's fragments |
| Generator.ActionEmitsAtMostOne | langium/ArduinoML/src/cli/generator.ts:177-212 | an action emits at most one line, and none iff it has no digital actuator and no usable analog value |
| Generator.EmitActions | langium/ArduinoML/src/cli/generator.ts:167-169 | the actions' fragments are appended in order |
| Generator.DigitalActionsInOrder | langium/ArduinoML/src/cli/generator.ts:167-187 | digital actions give one `digitalWrite` each, in order |
| Generator.EmitDebounceUpdates | langium/ArduinoML/src/cli/generator.ts:300-303 | one debounce-time update per sensor, in order |
| Generator.DebounceUpdatesShape | langium/ArduinoML/src/cli/generator.ts:300-303 | update k resets the debounce time of sensor k |
| Generator.CompileTransition | langium/ArduinoML/src/cli/generator.ts:234-310 | appends the guard, the debounce updates and the state change |
| Generator.TransitionOrder | langium/ArduinoML/src/cli/generator.ts:296-309 | the guard over the joined conditions and debounce conjunct comes first, then every sensor's update, then `currentState = next` last |
| Generator.CompileState | langium/ArduinoML/src/cli/generator.ts:160-175 | appends `case name:`, the actions, the transition and `break;` |
| Generator.StateBlockBounds | langium/ArduinoML/src/cli/generator.ts:160-175 | a state block opens with its `case` line and ends with `break;` |
| Generator.EmitGlobals | langium/ArduinoML/src/cli/generator.ts:53-72 | appends the debounce globals of the bricks |
| Generator.GlobalsDeclared | langium/ArduinoML/src/cli/generator.ts:53-72 | every brick with `inputPin` that is not an `AnalogSensor` gets debounce globals |
| Generator.GlobalsOnlyForDebounced | langium/ArduinoML/src/cli/generator.ts:53-72 | no other brick gets debounce globals |
| Generator.SetupLinesInOrder | langium/ArduinoML/src/cli/generator.ts:75-89 | the prologue ends with one setup line per brick, brick k's line at position k of the `setup()` block |
| Generator.EmitSetup | langium/ArduinoML/src/cli/generator.ts:75-89 | appends the setup lines of the bricks in order |
| Generator.EmitStates | langium/ArduinoML/src/cli/generator.ts:98-100 | appends the blocks of the states in order |
| Generator.EmitPrologue | langium/ArduinoML/src/cli/generator.ts:35-51 | appends the header with the app name, the state enum and the initial state |
| Generator.Compile | langium/ArduinoML/src/cli/generator.ts:34-108 | appends the prologue, globals, setup, loop with state blocks, and the closing text |
| Generator.GenerateIno | langium/ArduinoML/src/cli/generator.ts:24-30 | the written text is the concatenation of what `compile` appends |
| AllocatedGenerator.EmitSensorGlobals | langium/ArduinoML/out/cli/generator.js:41-49 | debounce globals for the `Sensor` bricks, in order |
| AllocatedGenerator.SensorGlobalsDeclared | langium/ArduinoML/out/cli/generator.js:41-49 | every `Sensor` brick gets debounce globals |
| AllocatedGenerator.EmitAllocatedSetup | langium/ArduinoML/out/cli/generator.js:52-59 | appends setup lines for sensors and actuators, each with its allocated pin |
| AllocatedGenerator.SensorSetupUsesAllocatedPin | langium/ArduinoML/out/cli/generator.js:77-81 | a sensor's setup line uses `getPin` of that sensor |
| AllocatedGenerator.CompileAllocatedAction | langium/ArduinoML/out/cli/generator.js:94-98 | one `digitalWrite` on the allocated pin of the action's actuator |
| AllocatedGenerator.EmitAllocatedActions | langium/ArduinoML/out/cli/generator.js:85-87 | the actions' lines are appended in order |
| AllocatedGenerator.AllocatedConditionCode | langium/ArduinoML/out/cli/generator.js:130-155 | the condition loop computes the operator join of the pieces, skipping unresolved bricks |
| AllocatedGenerator.PieceSkippedIffUnresolved | langium/ArduinoML/out/cli/generator.js:133-147 | a condition contributes nothing iff its brick is unresolved; sensors and actuators give `digitalRead(pin) == value` with the allocated pin |
| AllocatedGenerator.CompileAllocatedTransition | langium/ArduinoML/out/cli/generator.js:119-175 | appends the guard, the sensors' debounce updates and the state change |
| AllocatedGenerator.CompileAllocatedState | langium/ArduinoML/out/cli/generator.js:82-93 | appends `case`, the actions, the transition and `break;` |
| AllocatedGenerator.EmitAllocatedStates | langium/ArduinoML/out/cli/generator.js:64-66 | appends the state blocks in order |
| AllocatedGenerator.EmitPrologue | langium/ArduinoML/out/cli/generator.js:31-40 | appends the header with the allocation summary, the enum and the initial state |
| AllocatedGenerator.EmitProgram | langium/ArduinoML/out/cli/generator.js:31-70 | appends everything `compile` emits after allocation |
| AllocatedGenerator.CompileAllocated | langium/ArduinoML/out/cli/generator.js:24-71 | allocation runs first; if it throws, nothing is appended and the error is returned, with no state read; otherwise the whole program is appended |
| AllocatedGenerator.GenerateAllocatedIno | langium/ArduinoML/out/cli/generator.js:15-20 | the file text exists iff allocation succeeds, and it is the concatenation of the compiled fragments |
| AllocatedGenerator.AutoSensorSetUpOnDrawnPin | langium/ArduinoML/out/cli/generator.js:27-59 | a sensor without a declared pin is set up on the pin the allocator drew for it, which is >= 1 |
| AllocatedGenerator.FailedAllocationWritesNothing | langium/ArduinoML/out/cli/generator.js:27-30 | every app whose allocation fails compiles (its states are never read) to the allocation error of a brick at which the automatic pass fails |
| MultiMachine.ValidateMachineConfiguration | langium/ArduinoML/src/cli/multi-machine-compiler.ts:4-27 | returns normally iff exactly one of `states` and `machines` is non-empty; both gives the mixing error, neither the missing-section error |
| MultiMachine.MachineEnumInOrder | langium/ArduinoML/src/cli/multi-machine-compiler.ts:41-44 | for states i < j, `name_machine` of state i occurs in the machine's enum before that of state j |
| MultiMachine.GenerateMultiMachineHeader | langium/ArduinoML/src/cli/multi-machine-compiler.ts:29-51 | appends the header and each machine's declarations |
| MultiMachine.EmitMachinesDeclarations | langium/ArduinoML/src/cli/multi-machine-compiler.ts:40-50 | the machines' declarations are appended in order |
| MultiMachine.DeclarationsInOrder | langium/ArduinoML/src/cli/multi-machine-compiler.ts:40-50 | machine i's enum, current state and last-run time are declaration 2i |
| MultiMachine.EmitStateCalls | langium/ArduinoML/src/cli/multi-machine-compiler.ts:70-72 | the callback runs once per state of the machine, with that machine's name |
| MultiMachine.StateCallsShape | langium/ArduinoML/src/cli/multi-machine-compiler.ts:70-72 | with a one-line callback, line i is the callback's output for state i |
| MultiMachine.EmitMachineBlock | langium/ArduinoML/src/cli/multi-machine-compiler.ts:64-77 | appends the period guard, the state calls and the close |
| MultiMachine.MachineBlockShape | langium/ArduinoML/src/cli/multi-machine-compiler.ts:64-77 | a block opens with the machine's period guard, then its states in order, then the close |
| MultiMachine.EmitMachineBlocks | langium/ArduinoML/src/cli/multi-machine-compiler.ts:63-78 | one block per machine, in declaration order |
| MultiMachine.MachineBlocksCount | langium/ArduinoML/src/cli/multi-machine-compiler.ts:63-78 | every machine contributes at least its four guard and close fragments |
| MultiMachine.GenerateMultiMachineLoop | langium/ArduinoML/src/cli/multi-machine-compiler.ts:53-83 | appends the loop start, the machine blocks and the loop end |
| MultiMachine.GenerateMachineStateTransition | langium/ArduinoML/src/cli/multi-machine-compiler.ts:85-92 | appends exactly the state-change line |
| MultiMachine.StateTransitionText | langium/ArduinoML/src/cli/multi-machine-compiler.ts:90-91 | the line assigns `currentState_machine`, and the next state's text appears verbatim before `;` |
| MultiMachine.RunBounds | langium/ArduinoML/src/cli/multi-machine-compiler.ts:66-67 | under the guard, with ticks 1..t, the last run is the dispatch count times the period, and that is the last multiple of the period <= t |
| MultiMachine.RunCount | langium/ArduinoML/src/cli/multi-machine-compiler.ts:66-67 | a machine dispatches t / period times, its last run at (t / period) * period |
| MultiMachine.RunAllIndependent | langium/ArduinoML/src/cli/multi-machine-compiler.ts:63-78 | each machine's count and last run are those it has on its own |
| MultiMachine.MachineDispatches | langium/ArduinoML/src/cli/multi-machine-compiler.ts:63-68 | among all machines, machine i dispatches t / period_i times |
| AnalogBricks.CompileAnalogCondition | langium/ArduinoML/src/cli/analog-bricks-compiler.ts:79-89 | non-empty exactly when `isAnalogCondition` holds |
| AnalogBricks.AnalogConditionShape | langium/ArduinoML/src/cli/analog-bricks-compiler.ts:85-86 | the text is `analogRead(` ... `) <op> <threshold>` |
| AnalogBricks.CompileAnalogActuator | langium/ArduinoML/src/cli/analog-bricks-compiler.ts:12-24 | appends one `OUTPUT` setup line |
| AnalogBricks.CompileAnalogSensor | langium/ArduinoML/src/cli/analog-bricks-compiler.ts:29-41 | appends one `INPUT` setup line |
| AnalogBricks.CompileAnalogAction | langium/ArduinoML/src/cli/analog-bricks-compiler.ts:47-74 | appends the action's analog fragments |
| AnalogBricks.AnalogActionAtMostOne | langium/ArduinoML/src/cli/analog-bricks-compiler.ts:51-73 | at most one line, present iff actuator and value are set and the value has a literal or a sensor |
| AnalogBricks.LiteralBeatsSensor | langium/ArduinoML/src/cli/analog-bricks-compiler.ts:52-62 | a literal `intValue` wins over a sensor value |
| SerialBricks.FirstSerialBrick | langium/ArduinoML/src/cli/serial-bricks-compiler.ts:16-18 | `find` gives the first `SerialBrick`, or none iff there is none |
| SerialBricks.InitializeSerial | langium/ArduinoML/src/cli/serial-bricks-compiler.ts:12-28 | appends the `Serial.begin` line of the first serial brick, if any |
| SerialBricks.InitializeSerialSpec | langium/ArduinoML/src/cli/serial-bricks-compiler.ts:16-27 | at most one line, present iff some brick is a `SerialBrick` |
| SerialBricks.StripQuotes | langium/ArduinoML/src/cli/serial-bricks-compiler.ts:38 | the result is the message without its leading quote, if it has one, and without its trailing quote exactly when a quote ends what is left; the interior is untouched |
| SerialBricks.StripQuotesOfQuoted | langium/ArduinoML/src/cli/serial-bricks-compiler.ts:38 | a quoted message loses exactly its two quotes |
| SerialBricks.StripQuotesUnquoted | langium/ArduinoML/src/cli/serial-bricks-compiler.ts:60 | a message without outer quotes is unchanged |
| SerialBricks.CompileSerialAction | langium/ArduinoML/src/cli/serial-bricks-compiler.ts:33-46 | appends the `Serial.println` line only when `serial` and `message` are set |
| SerialBricks.CompileSerialCondition | langium/ArduinoML/src/cli/serial-bricks-compiler.ts:58-64 | non-empty exactly when `isSerialCondition` holds |
| SerialBricks.HasSerialConditionLeaves | langium/ArduinoML/src/cli/serial-bricks-compiler.ts:69-76 | true iff some condition leaf of the binary tree is a serial condition |
| SerialBricks.OpenSerialCheckBlock | langium/ArduinoML/src/cli/serial-bricks-compiler.ts:81-88 | appends the block that reads and trims one input line |
| SerialBricks.CloseSerialCheckBlock | langium/ArduinoML/src/cli/serial-bricks-compiler.ts:93-98 | appends the single closing brace |
| TemperatureBricks.CompileTemperatureSensor | langium/ArduinoML/src/cli/temperature-bricks-compiler.ts:8-22 | appends the `INPUT` setup line on the allocated pin |
| TemperatureBricks.GenerateTemperatureConversionFunction | langium/ArduinoML/src/cli/temperature-bricks-compiler.ts:24-35 | appends the conversion function text |
| TemperatureBricks.CompileTemperatureCondition | langium/ArduinoML/src/cli/temperature-bricks-compiler.ts:41-54 | non-empty exactly when `isTemperatureCondition` holds |
| TemperatureBricks.TemperatureConditionShape | langium/ArduinoML/src/cli/temperature-bricks-compiler.ts:48-50 | the text is `readTemperature(<allocated pin>) <op> <threshold>` |
| TemperatureBricks.FindTemperatureSensor | langium/ArduinoML/src/cli/temperature-bricks-compiler.ts:66-68 | true iff some brick is a `TemperatureSensor` |
| TemperatureBricks.TemperatureSensorNeedsDeclaredPin | langium/ArduinoML/src/cli/pin-allocator.ts:112-138 | a temperature sensor without a declared pin makes allocation throw |
| Lcd.CompileLCDAction | langium/ArduinoML/src/cli/lcd.ts:4-28 | appends the clear-and-home reset, then the parts' prints |
| Lcd.EmitParts | langium/ArduinoML/src/cli/lcd.ts:9-27 | the parts' prints are appended in order |
| Lcd.EmitPart | langium/ArduinoML/src/cli/lcd.ts:10-26 | appends exactly what one part prints |
| Lcd.PartsFragmentsAppend | langium/ArduinoML/src/cli/lcd.ts:9-27 | the prints of consecutive parts follow the parts' order |
| Lcd.PartsFragmentsCount | langium/ArduinoML/src/cli/lcd.ts:10-13 | at most one print per part; constant parts print their text verbatim |
| Lcd.StatusPinChoice | langium/ArduinoML/src/cli/lcd.ts:16-25 | an `inputPin` brick prints HIGH/LOW, an `outputPin` brick ON/OFF; an unresolved brick or one with neither prints nothing |
| LangiumValidator.CheckNothing | langium/ArduinoML/src/language-server/arduino-ml-validator.ts:23-30 | a warning on `name` iff the name is non-empty and its first character changes under upper-casing |
| LangiumValidator.Utf16LengthBounds | langium/ArduinoML/src/language-server/arduino-ml-validator.ts:44-45 | `length` counts UTF-16 code units: at least the character count, at most twice it, and equal to it iff no character lies outside the Basic Multilingual Plane |
| LangiumValidator.EmojiCountsTwice | langium/ArduinoML/src/language-server/arduino-ml-validator.ts:44-45 | the constant `"123456789012345😀"` counts 17 code units, so it is over the limit of 16 |
| LangiumValidator.CheckLCDMessageLength | langium/ArduinoML/src/language-server/arduino-ml-validator.ts:36-58 | one warning iff the estimate (UTF-16 code units of each constant without its quotes, 10 per brick status) exceeds 16, with the estimate in its text; never an error |
| LangiumValidator.EstimatedLengthAppend | langium/ArduinoML/src/language-server/arduino-ml-validator.ts:41-50 | the estimate of concatenated parts is the sum of their estimates |
| LangiumValidator.EstimateCoversBricks | langium/ArduinoML/src/language-server/arduino-ml-validator.ts:47-48 | the estimate is at least 10 per brick-status part |
| LangiumValidator.TwoBricksOverflow | langium/ArduinoML/src/language-server/arduino-ml-validator.ts:47-52 | two brick-status parts always exceed 16 |
| LangiumValidator.QuotedTextMeasured | langium/ArduinoML/src/language-server/arduino-ml-validator.ts:44-52 | a quoted constant counts the UTF-16 code units of its inner text; it warns iff that count is over 16 |
| PyModel.CompositeCondition.constructor | python/pyArduinoML/model/Condition.py:44-49 | an AND/OR node holds its children in argument order |
| PyModel.CompositeCondition.Add | python/pyArduinoML/model/Condition.py:51-56 | `add` appends at the end and leaves earlier children and the node kind unchanged |
| PyModel.CompositeEdges | python/pyArduinoML/model/Condition.py:63-66 | an empty AND renders `true`, an empty OR `false`, one child renders as the child itself |
| PyModel.PairRendering | python/pyArduinoML/model/Condition.py:67 | two children render as `(a && b)` or `(a \|\| b)` |
| PyModel.AddExtendsRendering | python/pyArduinoML/model/Condition.py:51-67 | adding to a node with two or more children inserts ` && c` or ` \|\| c` before the closing parenthesis |
| PyModel.NestedGrouping | python/pyArduinoML/model/Condition.py:58-118 | `((A && B) \|\| C) && D` stays grouped as built |
| PyModel.EvaluateWellBracketed | python/pyArduinoML/model/Condition.py:31-118 | the rendering of any tree whose names have no parentheses is well bracketed |
| PyModel.NewTransition | python/pyArduinoML/model/Transition.py:11-28 | fields stored unchanged; a sensor without a condition gives `SensorCondition(sensor, value)`; an explicit condition is kept; neither gives none |
| PyModel.TransitionConditionDefault | python/pyArduinoML/model/Transition.py:25-35 | `evaluate_condition` renders the sensor test by default, and the explicit condition when one is given |
| PyBuilders.ConditionBuilder.constructor | python/pyArduinoML/methodchaining/ConditionBuilder.py:11-17 | no condition and no sensor yet |
| PyBuilders.ConditionBuilder.Sensor | python/pyArduinoML/methodchaining/ConditionBuilder.py:19-28 | records the sensor name and value, keeps the composite, returns itself |
| PyBuilders.ConditionBuilder.AndConditionOf | python/pyArduinoML/methodchaining/ConditionBuilder.py:30-37 | replaces the composite with an AND of the arguments and returns itself |
| PyBuilders.ConditionBuilder.OrConditionOf | python/pyArduinoML/methodchaining/ConditionBuilder.py:39-46 | replaces the composite with an OR of the arguments and returns itself |
| PyBuilders.ConditionBuilder.NotConditionOf | python/pyArduinoML/methodchaining/ConditionBuilder.py:48-55 | replaces the composite with a NOT and returns itself |
| PyBuilders.ConditionBuilder.Build | python/pyArduinoML/methodchaining/ConditionBuilder.py:57-68 | the composite when set, even with a sensor; else the sensor test, or `KeyError` for an unknown name; else none |
| PyBuilders.LastCompositeWins | python/pyArduinoML/methodchaining/ConditionBuilder.py:30-64 | after `sensor`, `and_condition` and `not_condition`, `build` gives the NOT |
| PyBuilders.StateBuilder.constructor | python/pyArduinoML/methodchaining/StateBuilder.py:16-27 | no actions and no transition |
| PyBuilders.StateBuilder.Set | python/pyArduinoML/methodchaining/StateBuilder.py:29-38 | appends one fresh action builder for the actuator, keeping earlier actions in order |
| PyBuilders.StateBuilder.When | python/pyArduinoML/methodchaining/StateBuilder.py:40-49 | replaces the transition with a fresh simple one on the sensor |
| PyBuilders.StateBuilder.WhenComposite | python/pyArduinoML/methodchaining/StateBuilder.py:51-77 | replaces the transition with a fresh composite one holding the pairs and the AND/OR kind |
| PyBuilders.StateBuilder.WhenCondition | python/pyArduinoML/methodchaining/StateBuilder.py:79-93 | replaces the transition with a fresh one holding the condition function |
| PyBuilders.ActionsOf | python/pyArduinoML/methodchaining/StateBuilder.py:106 | one built action per action builder, in order |
| PyBuilders.StateBuilder.GetContents | python/pyArduinoML/methodchaining/StateBuilder.py:95-106 | a fresh state with the name, one action per `set` call in order, and no transition |
| PyBuilders.SensorConditions | python/pyArduinoML/methodchaining/StateBuilder.py:146-147 | one `SensorCondition` per pair, in argument order |
| PyBuilders.StateBuilder.GetContents2 | python/pyArduinoML/methodchaining/StateBuilder.py:108-167 | an error leaves every state unchanged; success sets only the transition of the current state, to the built transition |
| PyBuilders.MissingSensorBeforeStates | python/pyArduinoML/methodchaining/StateBuilder.py:136-138 | in the composite branch a missing sensor raises `UndefinedBrick`, whatever the states |
| PyBuilders.MissingStateRaises | python/pyArduinoML/methodchaining/StateBuilder.py:124-163 | with the sensors declared, a missing current or next state raises `UndefinedState` in every branch, whether or not a simple transition has a value |
| PyBuilders.MissingSimpleSensorRaises | python/pyArduinoML/methodchaining/StateBuilder.py:156-159 | in the simple branch (including `when_all()`/`when_any()` with no pairs) a missing or undeclared sensor raises `UndefinedBrick`, whatever the states and the value |
| PyBuilders.CompositeTransitionBuilt | python/pyArduinoML/methodchaining/StateBuilder.py:146-155 | `when_all` builds an AND and `when_any` an OR over the sensor conditions in argument order, rendered accordingly |
| PyBuilders.SimpleTransitionBuilt | python/pyArduinoML/methodchaining/StateBuilder.py:156-167 | the simple branch renders `digitalRead(sensor) == value` |
| BnfLexer.MatchWords | python/grammar/bnf_parser.py:26-27 | a word match is one of the words, at word boundaries on both sides |
| BnfLexer.RunEnd | python/grammar/bnf_parser.py:29-34 | `\d+` and `\s+` match the longest run of digits or whitespace |
| BnfLexer.NextQuote | python/grammar/bnf_parser.py:28 | the closing quote is the first `"` after the opening one |
| BnfLexer.MatchPattern | python/grammar/bnf_parser.py:25-35 | every pattern consumes at least one character |
| BnfLexer.FirstMatchFrom | python/grammar/bnf_parser.py:48-58 | the first matching pattern in list order wins |
| BnfLexer.FirstPatternWins | python/grammar/bnf_parser.py:25-35 | no earlier pattern matches, and a keyword beats every other pattern |
| BnfLexer.QuotedStringToken | python/grammar/bnf_parser.py:28 | a quoted text without inner quotes lexes as one STRING token |
| BnfLexer.Lexer.constructor | python/grammar/bnf_parser.py:37-40 | position 0, no tokens |
| BnfLexer.Lexer.Tokenize | python/grammar/bnf_parser.py:43-61 | the loop yields the tokens of the lexing function, or its error for the first unmatched character |
| BnfLexer.Lexer.MatchAt | python/grammar/bnf_parser.py:48-58 | the pattern loop finds the first match at the current position |
| BnfLexer.LexAdvance | python/grammar/bnf_parser.py:52-57 | a match adds a token unless it is whitespace, and lexing resumes at its end |
| BnfLexer.UnmatchedRaises | python/grammar/bnf_parser.py:60-61 | an unmatched character raises at its position |
| BnfLexer.LexWellFormed | python/grammar/bnf_parser.py:43-58 | tokens are non-empty, non-overlapping and in source order, each with its text as in the input, and none is whitespace |
| BnfLexer.MatchedText | python/grammar/bnf_parser.py:25-35 | the matched text fits the token type's pattern |
| BnfLexer.LexTexts | python/grammar/bnf_parser.py:43-58 | every token's text fits its type |
| BnfParser.PyInt | python/grammar/bnf_parser.py:248 | `int` succeeds exactly on non-empty digit strings, with a non-negative value |
| BnfParser.ConsumeSpec | python/grammar/bnf_parser.py:136-150 | succeeds iff a token is left and it has the expected type and value; then it is returned and the cursor advances by one |
| BnfParser.Parser.constructor | python/grammar/bnf_parser.py:126-128 | the cursor starts at 0 |
| BnfParser.Parser.CurrentToken | python/grammar/bnf_parser.py:130-134 | the token at the cursor, or none at the end |
| BnfParser.Parser.Peek | python/grammar/bnf_parser.py:152-157 | the token `offset` ahead, or none past the end |
| BnfParser.Parser.Consume | python/grammar/bnf_parser.py:136-150 | agrees with the consume specification; the cursor moves by one on success and stays on error |
| BnfParser.ArgumentSpec | python/grammar/bnf_parser.py:238-242 | `keyword ( ARG )` consumes four tokens and returns the argument |
| BnfParser.Parser.Argument | python/grammar/bnf_parser.py:238-242 | agrees with the argument specification |
| BnfParser.DeviceDeclSpec | python/grammar/bnf_parser.py:231-273 | a sensor or actuator node with its unquoted name and integer pin; `int` of the pin runs before the closing `)` is consumed |
| BnfParser.BadPinRaisesFirst | python/grammar/bnf_parser.py:245-249 | a `NUMBER` that is not a decimal literal raises `ValueError` whatever follows it, a missing `)` included |
| BnfParser.Parser.ParseDeviceDecl | python/grammar/bnf_parser.py:231-273 | agrees with the device specification |
| BnfParser.BrickDeclSpec | python/grammar/bnf_parser.py:217-229 | a device node; the `NoneType` attribute error arises exactly when the tokens end right after a dot |
| BnfParser.Parser.ParseBrickDecl | python/grammar/bnf_parser.py:217-229 | agrees with the brick specification |
| BnfParser.BricksSpec | python/grammar/bnf_parser.py:180-187 | zero or more device nodes, stopping before anything that is not `.sensor` or `.actuator` |
| BnfParser.Parser.ParseBricks | python/grammar/bnf_parser.py:180-191 | agrees with the bricks specification |
| BnfParser.ActionSpec | python/grammar/bnf_parser.py:312-332 | an action node `.set(STRING).to(SIGNAL)` |
| BnfParser.Parser.ParseAction | python/grammar/bnf_parser.py:312-332 | agrees with the action specification |
| BnfParser.ActionsSpec | python/grammar/bnf_parser.py:291-298 | zero or more action nodes |
| BnfParser.ConditionTupleSpec | python/grammar/bnf_parser.py:445-459 | a `(STRING, SIGNAL)` condition node |
| BnfParser.Parser.ParseConditionTuple | python/grammar/bnf_parser.py:445-459 | agrees with the tuple specification |
| BnfParser.MoreConditionsSpec | python/grammar/bnf_parser.py:439-441 | the comma loop stops at the first token that is not a comma |
| BnfParser.ConditionListSpec | python/grammar/bnf_parser.py:429-443 | one or more comma-separated condition tuples |
| BnfParser.Parser.ParseConditionList | python/grammar/bnf_parser.py:429-443 | agrees with the list specification |
| BnfParser.SimpleTransitionSpec | python/grammar/bnf_parser.py:352-381 | a `simple_transition` node with sensor, signal and next state |
| BnfParser.Parser.ParseSimpleTransition | python/grammar/bnf_parser.py:352-381 | agrees with the simple-transition specification |
| BnfParser.CompoundTransitionSpec | python/grammar/bnf_parser.py:383-427 | an `and_transition` for `when_all`, an `or_transition` for `when_any` |
| BnfParser.Parser.ParseCompoundTransition | python/grammar/bnf_parser.py:383-427 | agrees with the compound-transition specification |
| BnfParser.TransitionSpec | python/grammar/bnf_parser.py:334-350 | a transition node of one of the three forms; the attribute error arises exactly when the tokens end right after a dot |
| BnfParser.Parser.ParseTransition | python/grammar/bnf_parser.py:334-350 | agrees with the transition specification |
| BnfParser.StateDeclSpec | python/grammar/bnf_parser.py:275-310 | a state node with its name, at least one action and one transition |
| BnfParser.Parser.ParseStateDecl | python/grammar/bnf_parser.py:275-310 | agrees with the state specification |
| BnfParser.StatesSpec | python/grammar/bnf_parser.py:194-201 | zero or more state nodes; none only when no `.state` follows |
| BnfParser.Parser.ParseStates | python/grammar/bnf_parser.py:194-207 | agrees with the states specification |
| BnfParser.StatesThenEndSpec | python/grammar/bnf_parser.py:194-215 | at least one state, then `.get_contents()` |
| BnfParser.GetContentsSpec | python/grammar/bnf_parser.py:209-213 | consumes exactly `. get_contents ( )` |
| BnfParser.ApplicationNode | python/grammar/bnf_parser.py:170-207 | app name first, a bricks node only when there are bricks, the states node last |
| BnfParser.ApplicationSpec | python/grammar/bnf_parser.py:163-215 | a well-shaped application tree ending in `.get_contents()` |
| BnfParser.Parser.ParseApplication | python/grammar/bnf_parser.py:163-215 | agrees with the application specification |
| BnfParser.UnquotedText | python/grammar/bnf_parser.py:176 | `strip('"')` of a quoted text without inner quotes gives the inner text |
| BnfParser.ToDictRoundTrip | python/grammar/bnf_parser.py:80-87 | the dictionary gives back the node, with falsy values dropped |
| BnfParser.NormalizedKeeps | python/grammar/bnf_parser.py:80-87 | a tree whose values are all truthy round-trips exactly |
| BnfParser.ValidateSpec | python/grammar/bnf_parser.py:488-504 | success iff lexing and parsing succeed, with a tree; failure gives a `Syntax error: ` or `Parse error: ` message and no tree |
| BnfParser.Validate | python/grammar/bnf_parser.py:488-504 | `validate` returns the validation specification and never raises |
| BnfParser.ValidateErrors | python/grammar/bnf_parser.py:498-504 | every failure is a syntax error or the `NoneType` attribute error; `int` never fails on lexed input |
| SemanticValidator.LastValue | python/grammar/semantic_validator.py:82-86 | no child of the kind leaves the value `None` |
| SemanticValidator.LastValueAt | python/grammar/semantic_validator.py:174-180 | the last child of the kind decides the value |
| SemanticValidator.FirstValue | python/grammar/semantic_validator.py:124-131 | the loop with `break` takes the first child of the kind, or nothing when there is none |
| SemanticValidator.DeclareBrick | python/grammar/semantic_validator.py:88-94 | a new name is added with its kind; a re-declared name adds a duplicate error and keeps the first kind; a falsy name changes nothing |
| SemanticValidator.DeclareState | python/grammar/semantic_validator.py:124-131 | the state name is added, with a duplicate error if it was already there |
| SemanticValidator.CheckAppName | python/grammar/semantic_validator.py:61-66 | an empty app name adds one error |
| SemanticValidator.ActuatorErrors | python/grammar/semantic_validator.py:153-161 | no error iff the actuator name is falsy or names a declared actuator; at most one |
| SemanticValidator.SensorErrors | python/grammar/semantic_validator.py:182-191 | no error iff the sensor name is falsy or names a declared sensor; at most one |
| SemanticValidator.SignalErrors | python/grammar/semantic_validator.py:163-166 | no error iff the signal is falsy, `HIGH` or `LOW` |
| SemanticValidator.AddTarget | python/grammar/semantic_validator.py:197-198 | a truthy target is appended; otherwise nothing changes |
| SemanticValidator.TargetErrors | python/grammar/semantic_validator.py:252-258 | no error iff every target is a declared state; at most one per target |
| SemanticValidator.SemanticsSpec | python/grammar/semantic_validator.py:20-43 | valid iff there are no errors; the warnings are always empty |
| SemanticValidator.VisitExtends | python/grammar/semantic_validator.py:45-56 | visiting only adds: errors, targets, bricks and states are never lost |
| SemanticValidator.DuplicateBrickKeepsFirst | python/grammar/semantic_validator.py:88-113 | a sensor then an actuator of one name keep the sensor and add one duplicate error |
| SemanticValidator.VisitStateTo | python/grammar/semantic_validator.py:120-135 | a state adds its name and its transition's target |
| SemanticValidator.ForwardReferenceAccepted | python/grammar/semantic_validator.py:38-41 | two states that target each other are valid, since targets are checked after the visit |
| SemanticValidator.TransitionValues | python/grammar/semantic_validator.py:174-180 | the child loop finds the last sensor, signal and next state |
| SemanticValidator.LastValues | python/grammar/semantic_validator.py:147-151 | the child loop finds the last value of each of two kinds |
| SemanticValidator.VisitActionIs | python/grammar/semantic_validator.py:142-166 | an action adds its actuator errors, then its signal errors |
| SemanticValidator.VisitSimpleTransitionIs | python/grammar/semantic_validator.py:168-198 | a simple transition adds sensor and signal errors and records its target |
| SemanticValidator.VisitCompoundTransitionIs | python/grammar/semantic_validator.py:208-219 | a compound transition visits its non-target children and records its last target |
| SemanticValidator.VisitConditionIs | python/grammar/semantic_validator.py:226-250 | a condition adds sensor and signal errors |
| SemanticValidator.Validator.constructor | python/grammar/semantic_validator.py:12-18 | empty collections |
| SemanticValidator.Validator.Validate | python/grammar/semantic_validator.py:20-43 | the result is the specification's, whatever state the validator had before |
| SemanticValidator.Validator.VisitNode | python/grammar/semantic_validator.py:45-56 | `_visit` moves the collected state as the visit function says |
| SemanticValidator.Validator.VisitChildrenOf | python/grammar/semantic_validator.py:54-56 | the default visit walks the children in order |
| SemanticValidator.Validator.VisitApplication | python/grammar/semantic_validator.py:58-70 | checks the app name, then visits every child |
| SemanticValidator.Validator.VisitBrick | python/grammar/semantic_validator.py:77-113 | declares the sensor or actuator |
| SemanticValidator.Validator.VisitState | python/grammar/semantic_validator.py:120-135 | declares the state, then visits its children |
| SemanticValidator.Validator.VisitAction | python/grammar/semantic_validator.py:142-166 | checks the actuator and the signal |
| SemanticValidator.Validator.CheckSignal | python/grammar/semantic_validator.py:163-166 | appends the signal errors and nothing else |
| SemanticValidator.Validator.CheckSensor | python/grammar/semantic_validator.py:182-191 | appends the sensor errors and nothing else |
| SemanticValidator.Validator.VisitSimpleTransition | python/grammar/semantic_validator.py:168-198 | checks sensor and signal, then records the target |
| SemanticValidator.Validator.VisitCompoundTransition | python/grammar/semantic_validator.py:200-219 | visits the other children, then records the target |
| SemanticValidator.Validator.VisitCondition | python/grammar/semantic_validator.py:226-250 | checks the condition's sensor and signal |
| SemanticValidator.Validator.ValidateTargetStates | python/grammar/semantic_validator.py:252-258 | appends one error per undefined target, in order |
| Common.Split | python/grammar/bnf_parser.py:516 | `split('\n')` gives at least one piece, none containing the separator, and joining them back gives the input |
| Common.LStrip | python/grammar/bnf_parser.py:521 | the left part of `strip()`: the longest whitespace prefix is removed |
| Common.RStrip | python/grammar/bnf_parser.py:521 | the right part of `strip()`: the longest whitespace suffix is removed |
| Common.RStripChar | python/grammar/bnf_parser.py:535 | `rstrip('\\')` removes exactly the trailing backslashes |
| DslExtract.Classify | python/grammar/bnf_parser.py:521-539 | a line is skipped iff blank or a comment; it opens the chain iff it contains `AppBuilder(`; it closes it iff its kept text contains `.get_contents()` |
| DslExtract.ReadLine | python/grammar/bnf_parser.py:521-535 | the per-line code computes the line's classification |
| DslExtract.Collect | python/grammar/bnf_parser.py:520-540 | no more lines than given, none of them empty |
| DslExtract.CollectChain | python/grammar/lark_parser.py:81-101 | the line loop with its `in_chain` flag computes the collected lines |
| DslExtract.ExtractDslFromPython | python/grammar/bnf_parser.py:506-542 | the extracted text is the collected lines joined by the separator |
| DslExtract.KeptTrimmed | python/grammar/lark_parser.py:96 | a kept line has no surrounding whitespace |
| DslExtract.CollectedTrimmed | python/grammar/lark_parser.py:94-98 | every collected line is trimmed |
| DslExtract.SkippedLinesIgnored | python/grammar/lark_parser.py:84-86 | blank and comment lines do not affect the result |
| DslExtract.LeadingLinesIgnored | python/grammar/lark_parser.py:88-92 | lines before the first `AppBuilder(` line are ignored |
| DslExtract.NoChainCollectsNothing | python/grammar/lark_parser.py:88-94 | without an opening line nothing is collected |
| DslExtract.OpeningText | python/grammar/lark_parser.py:88-92 | the opening line's kept text starts with `AppBuilder(` |
| DslExtract.ChainStartsAtFirstOpening | python/grammar/lark_parser.py:88-98 | the first collected line is the first opening line's text |
| DslExtract.CollectionStops | python/grammar/lark_parser.py:100-101 | only the last collected line can contain `.get_contents()` |
| DslExtract.NoAppBuilderGivesEmpty | python/grammar/lark_parser.py:77-103 | input with no `AppBuilder(` gives the empty string |

## Left out

- File-system I/O in `generateInoFile` (directory creation, `writeFileSync`): left out because it is a side effect outside the computed text. The generators return the text, which is written only after `compile` returns.
- `registerValidationChecks`, Langium's `CompositeGeneratorNode`, the generated AST and `cli-util`: left out because their source is not part of this model. The AST is plain datatypes and the generator node is the append-only `Ast.FileNode`.
- Langium object identity: bricks are compared by value. Two distinct bricks with identical fields would be merged by `sensors.includes` and by the allocation map. In the source they are not merged.
- A missing Langium property versus an `undefined` one is modelled by `Field` (`Missing`, `Unset`, `Set`). A cross-reference is `Link` (`NoLink`, `Unresolved`, `Resolved`). JS text rendering of `undefined` is the text `undefined`.
- Generator.CompileState: requires a transition, because `state.transition !== null` is also true when the property is undefined. `compileTransition` then throws, and that crash is not modelled. The same requirement is on `EmitStates`, `Compile` and `GenerateIno`.
- AllocatedGenerator.CompileAllocated: requires `Compilable(app)`. When the allocation succeeds, every state must have a transition, every action an actuator reference and a value, and every condition a brick reference (and a value on sensors and actuators). The JS reads these unguarded and throws: `state.transition !== null` (langium/ArduinoML/out/cli/generator.js:88) is also true when the transition is undefined, and `compileTransition` then throws. That throw is not modelled. When the allocation fails nothing is required of the states, because the allocation error is thrown before any state is read. The same requirement holds for `GenerateAllocatedIno`, and `StatesReadable` or `ActionReadable` for the other members of that module.
- The multi-machine state callback is a function parameter: its own output belongs to a caller whose source is not part of this model.
- MultiMachine tick model: it covers only integer ticks 1..t with `lastRun` starting at 0; `millis()` wrap-around and timing jitter of the firmware are not modelled.
- The runtime semantics of the emitted firmware (`digitalRead`, `Serial`, `millis()`) are not modelled.
- The floating-point TMP36 conversion is emitted as a constant text; its arithmetic is not modelled.
- Pin distinctness: allocated pins are not globally distinct, because the PWM and analog pools overlap. The model proves the properties that do hold (see `Pins.AllocatePinsSound`) and the overlap itself (`Pins.AnalogPoolsOverlap`).
- A temperature sensor, serial brick or any other brick whose kind has no pool, and which has no declared pin, makes `allocatePins` throw (`Pins.UnpooledBrickFails`). This is the code's behaviour and is modelled as such.
- LangiumValidator.CheckNothing: `toUpperCase` is modelled on ASCII letters only; other characters are left unchanged.
- The `accept` callback of the Langium checks is modelled by returning the diagnostic.
- BnfLexer.MatchPattern: regular-expression classes are modelled on ASCII: `\b` and `\w` on ASCII letters, digits and `_`; `\d` on ASCII digits. `\s` uses Python's `str.isspace` set over the characters modelled. Python 3's Unicode `\w`/`\d` would also match other scripts.
- BnfParser.PyInt: models `int` on ASCII digit strings only. Python's `int` also accepts signs, surrounding whitespace, underscores and non-ASCII digits. The modelled ASCII lexer never hands it those; Python's `NUMBER` pattern `\d+` (python/grammar/bnf_parser.py:29) would also match non-ASCII decimal digits, which `int` accepts (see the `BnfLexer.MatchPattern` line).
- The `InvalidLiteral` message of `int` is not reproduced character for character; only its `Parse error: ` prefix is.
- `consume` is always called with a type in the source, so the model's `ConsumeSpec` always takes one.
- `_visit` checks `isinstance(node, ParseNode)`: every node of the model is a `ParseNode`, so that guard is always true.
- `_visit_sensor` and `_visit_actuator` read the `pin` child but never use it; the model does not read it either.
- The semantic validator's values are modelled as `PyValue` (none, string, integer); Python truthiness follows that type.
- The Lark-backed parser, its grammar file and `validate`/`validate_function`: left out because they wrap an external library. Only `extract_dsl_from_python` is modelled.
- `extract_dsl_from_python` is one function with the separator as a parameter: `""` in `bnf_parser.py` and `" "` in `lark_parser.py`.
- DslExtract.Classify: `rstrip('\\').strip()` leaves a backslash in place when whitespace separates it from the end. The model follows the code.
- `SIGNAL.value` is modelled as the signal's name (`HIGH`, `LOW`), because the `SIGNAL` module is not part of this model.
- `TransitionBuilder`, `StateActionBuilder` and `State` are not part of this model beyond the fields the builders read and write. `AppBuilder` and the root builders are not modelled.
- PyModel.NewTransition: requires a value when a sensor is given without a condition. Python would store `SensorCondition(sensor, None)`, whose rendering fails inside `SIGNAL.value`, which is not part of this model.
- PyBuilders.StateBuilder.GetContents2: requires `CanBuild(bricks, states)`, for the same reason: a value only on a simple transition whose sensor, current state and next state all resolve, the one path where Python would build `Transition(sensor, None, …)`. Every path that raises `UndefinedBrick` or `UndefinedState` first is modelled (`PyBuilders.MissingSimpleSensorRaises`, `PyBuilders.MissingStateRaises`). The custom condition function is a total Dafny function, so exceptions it might raise are not modelled.
- PyBuilders.SimpleTransitionBuilt: takes the same `CanBuild(bricks, states)` requirement as `GetContents2`; a value-less simple transition that gets as far as building is not modelled.
- PyBuilders.StateBuilder.WhenComposite: only `(sensor, value)` pairs are modelled. The docstrings (python/pyArduinoML/methodchaining/StateBuilder.py:55, 69) also allow `Condition` objects; those are stored, and `get_contents2` then fails with a `TypeError` when it unpacks them (lines 136 and 146). That failure is not modelled.
- `evaluate_condition` on a transition without a condition raises in Python; the model returns `None` there.
