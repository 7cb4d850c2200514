/** The LCD action compiler: clear the display, put the cursor home, then
    print each part of the message in order. */
module Lcd {
  import opened Common
  import opened Ast

  const LCD_RESET: string := "\n\t\t\tlcd.clear();\n\t\t\tlcd.setCursor(0, 0);"

  function PrintText(text: string): string
  {
    "\n\t\t\tlcd.print(\"" + text + "\");"
  }

  /** The status of a brick read back from its pin, shown as `high` or `low`. */
  function PrintStatus(pin: Field<int>, high: string, low: string): string
  {
    "\n\t\t\tlcd.print(digitalRead(" + NumberText(pin) + ") == HIGH ? \"" + high + "\" : \"" + low + "\");"
  }

  /** What one part prints: the constant text as written; for a brick, its
      input pin's level as HIGH/LOW when it has an `inputPin` property, else
      its output pin's level as ON/OFF when it has an `outputPin` property;
      nothing for an unresolved brick or one with neither property. */
  function PartFragments(p: LcdPart): (r: seq<string>)
    ensures |r| <= 1
  {
    match p
    case ConstantPart(text) => [PrintText(text)]
    case BrickStatusPart(brick) =>
      if brick.Some? && !brick.value.inputPin.Missing? then [PrintStatus(brick.value.inputPin, "HIGH", "LOW")]
      else if brick.Some? && !brick.value.outputPin.Missing? then [PrintStatus(brick.value.outputPin, "ON", "OFF")]
      else []
  }

  /** The prints of the parts, in order. */
  function PartsFragments(parts: seq<LcdPart>): seq<string>
  {
    if parts == [] then [] else PartsFragments(parts[..|parts| - 1]) + PartFragments(parts[|parts| - 1])
  }

  /** What `compileLCDAction` appends. */
  function LcdActionFragments(parts: seq<LcdPart>): seq<string>
  {
    [LCD_RESET] + PartsFragments(parts)
  }

  method CompileLCDAction(parts: seq<LcdPart>, f: FileNode)
    modifies f
    ensures f.parts == old(f.parts) + LcdActionFragments(parts)
  {
    ghost var start := f.parts;
    f.Append(LCD_RESET);
    EmitParts(parts, f);
    assert start + [LCD_RESET] + PartsFragments(parts) == start + ([LCD_RESET] + PartsFragments(parts));
  }

  /** The loop of `compileLCDAction` over the message parts. */
  method EmitParts(parts: seq<LcdPart>, f: FileNode)
    modifies f
    ensures f.parts == old(f.parts) + PartsFragments(parts)
  {
    var i := 0;
    while i < |parts|
      invariant 0 <= i <= |parts|
      invariant f.parts == old(f.parts) + PartsFragments(parts[..i])
    {
      ghost var before := f.parts;
      EmitPart(parts[i], f);
      PartsStep(old(f.parts), parts, i, before);
      i := i + 1;
    }
    assert parts[..i] == parts;
  }

  /** One more part printed extends the text of the first `i` parts. */
  lemma PartsStep(start: seq<string>, parts: seq<LcdPart>, i: nat, done: seq<string>)
    requires i < |parts| && done == start + PartsFragments(parts[..i])
    ensures done + PartFragments(parts[i]) == start + PartsFragments(parts[..i + 1])
  {
    assert parts[..i + 1][..i] == parts[..i];
  }

  /** The loop body of `compileLCDAction`: the print of one part. */
  method EmitPart(part: LcdPart, f: FileNode)
    modifies f
    ensures f.parts == old(f.parts) + PartFragments(part)
  {
    match part {
      case ConstantPart(text) =>
        f.Append(PrintText(text));
      case BrickStatusPart(brick) =>
        if brick.Some? && !brick.value.inputPin.Missing? {
          f.Append(PrintStatus(brick.value.inputPin, "HIGH", "LOW"));
        } else if brick.Some? && !brick.value.outputPin.Missing? {
          f.Append(PrintStatus(brick.value.outputPin, "ON", "OFF"));
        } else {
          assert old(f.parts) + [] == old(f.parts);
        }
    }
  }

  // ------------------------------------------------------------ properties

  /** The prints of a message split in two are the prints of each half. */
  lemma {:induction false} PartsFragmentsAppend(xs: seq<LcdPart>, ys: seq<LcdPart>)
    ensures PartsFragments(xs + ys) == PartsFragments(xs) + PartsFragments(ys)
    decreases |ys|
  {
    if ys == [] {
      assert xs + ys == xs;
    } else {
      var init := ys[..|ys| - 1];
      assert (xs + ys)[..|xs + ys| - 1] == xs + init;
      PartsFragmentsAppend(xs, init);
    }
  }

  /** Each part prints at most once, so the action is at most one line per
      part after the reset, and exactly one per part when every part is a
      constant. */
  lemma {:induction false} PartsFragmentsCount(parts: seq<LcdPart>)
    ensures |PartsFragments(parts)| <= |parts|
    ensures (forall i :: 0 <= i < |parts| ==> parts[i].ConstantPart?) ==>
      PartsFragments(parts) == seq(|parts|, i requires 0 <= i < |parts| => PrintText(parts[i].text))
  {
    if parts != [] {
      var init := parts[..|parts| - 1];
      PartsFragmentsCount(init);
      if forall i :: 0 <= i < |parts| ==> parts[i].ConstantPart? {
        assert forall i :: 0 <= i < |init| ==> init[i] == parts[i];
      }
    }
  }

  /** A sensor status reads the brick's input pin, even when the brick also
      has an output pin; an actuator status reads its output pin. */
  lemma StatusPinChoice(b: Brick)
    ensures !b.inputPin.Missing? ==>
      PartFragments(BrickStatusPart(Some(b))) == [PrintStatus(b.inputPin, "HIGH", "LOW")]
    ensures b.inputPin.Missing? && !b.outputPin.Missing? ==>
      PartFragments(BrickStatusPart(Some(b))) == [PrintStatus(b.outputPin, "ON", "OFF")]
    ensures b.inputPin.Missing? && b.outputPin.Missing? ==> PartFragments(BrickStatusPart(Some(b))) == []
    ensures PartFragments(BrickStatusPart(None)) == []
  {
  }
}
