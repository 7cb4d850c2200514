/** The temperature brick compiler: the `pinMode` line of a TMP36 sensor on
    its allocated pin, the conversion routine emitted as fixed text, and
    temperature threshold conditions read through `readTemperature`. */
module TemperatureBricks {
  import opened Common
  import opened Ast
  import opened Pins

  function TemperatureSetupLine(b: Brick, pin: int): string
  {
    "\n\t\tpinMode(" + IntToString(pin) + ", INPUT); // " + b.name + " [TemperatureSensor TMP36]"
  }

  /** `compileTemperatureSensor`: the pin is whatever `getPin` answers. */
  method CompileTemperatureSensor(b: Brick, f: FileNode, pa: PinAllocator)
    modifies f
    ensures f.parts == old(f.parts) + [TemperatureSetupLine(b, PinOf(pa.allocations, b))]
  {
    var pin := pa.GetPin(b);
    f.Append(TemperatureSetupLine(b, pin));
  }

  /** The TMP36 conversion routine, emitted verbatim; its arithmetic runs on
      the board and is not modelled. */
  const TEMPERATURE_CONVERSION: string :=
    "\n// Temperature conversion function for TMP36 sensor\n// Returns temperature in Celsius\nfloat readTemperature(int pin) {\n\tint reading = analogRead(pin);\n\tfloat voltage = reading * 5.0 / 1024.0;\n\tfloat temperatureC = (voltage - 0.5) * 100.0;\n\treturn temperatureC;\n}\n"

  method GenerateTemperatureConversionFunction(f: FileNode)
    modifies f
    ensures f.parts == old(f.parts) + [TEMPERATURE_CONVERSION]
  {
    f.Append(TEMPERATURE_CONVERSION);
  }

  /** `isTemperatureCondition`: the brick resolves to a `TemperatureSensor`
      and the condition has a non-empty operator and a threshold (0 counts). */
  predicate IsTemperatureCondition(c: Condition)
  {
    c.brick.Resolved? && c.brick.target.kind == TemperatureSensor && c.operator != "" && c.threshold.Some?
  }

  /** `compileTemperatureCondition`: the threshold test on the allocated pin,
      or `''`. */
  function CompileTemperatureCondition(c: Condition, allocations: map<Brick, int>): (r: string)
    ensures r != "" <==> IsTemperatureCondition(c)
  {
    if !c.brick.NoLink? && c.operator != "" && c.threshold.Some? then
      if c.brick.Resolved? && c.brick.target.kind == TemperatureSensor then
        "readTemperature(" + IntToString(PinOf(allocations, c.brick.target)) + ") " + c.operator + " "
        + IntToString(c.threshold.value)
      else ""
    else ""
  }

  /** `hasTemperatureSensor`. */
  predicate HasTemperatureSensor(bricks: seq<Brick>)
  {
    exists i :: 0 <= i < |bricks| && bricks[i].kind == TemperatureSensor
  }

  /** The scan `bricks.some(...)` performs. */
  method FindTemperatureSensor(bricks: seq<Brick>) returns (found: bool)
    ensures found <==> HasTemperatureSensor(bricks)
  {
    var i := 0;
    while i < |bricks|
      invariant 0 <= i <= |bricks|
      invariant forall j :: 0 <= j < i ==> bricks[j].kind != TemperatureSensor
    {
      if bricks[i].kind == TemperatureSensor {
        return true;
      }
      i := i + 1;
    }
    return false;
  }

  /** The test reads the pin `getPin` answers for the sensor, then compares
      with the operator and threshold as written. */
  lemma TemperatureConditionShape(c: Condition, allocations: map<Brick, int>)
    requires IsTemperatureCondition(c)
    ensures var head := "readTemperature(" + IntToString(PinOf(allocations, c.brick.target)) + ")";
      var tail := " " + c.operator + " " + IntToString(c.threshold.value);
      CompileTemperatureCondition(c, allocations) == head + tail
  {
  }

  /** `allocatePin` has no pool for a temperature sensor, so one that
      declares no pin makes `allocatePins` throw before any code is
      generated; the sensor's pin is therefore always the declared one. */
  lemma TemperatureSensorNeedsDeclaredPin(hasLCD: bool, bs: seq<Brick>, b: Brick)
    requires b in bs && b.kind == TemperatureSensor && DeclaredPin(b).None?
    ensures AllocatePinsSpec(Init(hasLCD), bs).failed.Some?
  {
    UnpooledBrickFails(hasLCD, bs, b);
  }
}
