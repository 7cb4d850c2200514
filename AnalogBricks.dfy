/** The analog brick compiler: `pinMode` lines for analog actuators and
    sensors, `analogWrite` actions (a literal value or another sensor's
    reading) and analog threshold conditions. */
module AnalogBricks {
  import opened Common
  import opened Ast

  /** `compileAnalogActuator`: an output on the declared `outputPin`. */
  function AnalogActuatorSetupLine(b: Brick): string
  {
    "\n\t\tpinMode(" + NumberText(b.outputPin) + ", OUTPUT); // " + b.name + " [AnalogActuator]"
  }

  /** `compileAnalogSensor`: an input on the declared `inputPin`. */
  function AnalogSensorSetupLine(b: Brick): string
  {
    "\n\t\tpinMode(" + NumberText(b.inputPin) + ", INPUT); // " + b.name + " [AnalogSensor]"
  }

  function AnalogWrite(pin: string, value: string): string
  {
    "\n\t\t\t\t\tanalogWrite(" + pin + "," + value + ");"
  }

  /** The value written when it comes from another sensor: ` analogRead(pin)`. */
  function SensorReading(sensor: Link<Brick>): string
  {
    " analogRead(" + LinkedInputPin(sensor) + ")"
  }

  /** What `compileAnalogAction` appends: nothing unless the action names an
      analog actuator and an analog value; then a write of the literal when
      there is one, else of the sensor's reading when there is a sensor,
      else nothing. */
  function AnalogActionFragments(a: Action): seq<string>
  {
    if !a.analogActuator.NoLink? && a.analogValue.Some? then
      if a.analogValue.value.intValue.Some? then
        [AnalogWrite(LinkedOutputPin(a.analogActuator), IntToString(a.analogValue.value.intValue.value))]
      else if !a.analogValue.value.sensorValue.NoLink? then
        [AnalogWrite(LinkedOutputPin(a.analogActuator), SensorReading(a.analogValue.value.sensorValue))]
      else []
    else []
  }

  /** `isAnalogCondition`: an analog brick, a non-empty operator and a
      threshold (0 counts). */
  predicate IsAnalogCondition(c: Condition)
  {
    !c.analogBrick.NoLink? && c.operator != "" && c.threshold.Some?
  }

  /** `compileAnalogCondition`: the threshold test, or `''` when the
      condition is not analog. */
  function CompileAnalogCondition(c: Condition): (r: string)
    ensures r != "" <==> IsAnalogCondition(c)
  {
    if IsAnalogCondition(c) then
      "analogRead(" + LinkedInputPin(c.analogBrick) + ") " + c.operator + " " + IntToString(c.threshold.value)
    else ""
  }

  // ------------------------------------------------------------ emitters

  method CompileAnalogActuator(b: Brick, f: FileNode)
    modifies f
    ensures f.parts == old(f.parts) + [AnalogActuatorSetupLine(b)]
  {
    f.Append("\n\t\tpinMode(" + NumberText(b.outputPin) + ", OUTPUT); // " + b.name + " [AnalogActuator]");
  }

  method CompileAnalogSensor(b: Brick, f: FileNode)
    modifies f
    ensures f.parts == old(f.parts) + [AnalogSensorSetupLine(b)]
  {
    f.Append("\n\t\tpinMode(" + NumberText(b.inputPin) + ", INPUT); // " + b.name + " [AnalogSensor]");
  }

  method CompileAnalogAction(a: Action, f: FileNode)
    modifies f
    ensures f.parts == old(f.parts) + AnalogActionFragments(a)
  {
    if !a.analogActuator.NoLink? && a.analogValue.Some? {
      var v := a.analogValue.value;
      if v.intValue.Some? {
        f.Append(AnalogWrite(LinkedOutputPin(a.analogActuator), IntToString(v.intValue.value)));
      } else if !v.sensorValue.NoLink? {
        f.Append(AnalogWrite(LinkedOutputPin(a.analogActuator), SensorReading(v.sensorValue)));
      }
    }
  }

  // ------------------------------------------------------------ properties

  /** An analog action emits at most one `analogWrite`, and one exactly when
      it names an analog actuator and a value that is a literal or a sensor. */
  lemma AnalogActionAtMostOne(a: Action)
    ensures |AnalogActionFragments(a)| <= 1
    ensures |AnalogActionFragments(a)| == 1 <==>
      && !a.analogActuator.NoLink? && a.analogValue.Some?
      && (a.analogValue.value.intValue.Some? || !a.analogValue.value.sensorValue.NoLink?)
  {
  }

  /** A literal value takes precedence over a sensor that is also given. */
  lemma LiteralBeatsSensor(a: Action, n: int)
    requires !a.analogActuator.NoLink? && a.analogValue.Some?
    requires a.analogValue.value.intValue == Some(n) && !a.analogValue.value.sensorValue.NoLink?
    ensures AnalogActionFragments(a) == [AnalogWrite(LinkedOutputPin(a.analogActuator), IntToString(n))]
  {
  }

  /** The threshold test reads the analog brick's input pin and ends with
      the operator and the threshold. */
  lemma AnalogConditionShape(c: Condition)
    requires IsAnalogCondition(c)
    ensures var r := CompileAnalogCondition(c);
      var tail := " " + c.operator + " " + IntToString(c.threshold.value);
      && r[..|"analogRead("|] == "analogRead("
      && |tail| <= |r| && r[|r| - |tail|..] == tail
  {
    var tail := " " + c.operator + " " + IntToString(c.threshold.value);
    var head := "analogRead(" + LinkedInputPin(c.analogBrick) + ")";
    assert CompileAnalogCondition(c) == head + tail;
  }
}
