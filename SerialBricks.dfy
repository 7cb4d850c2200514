/** The serial brick compiler: `Serial.begin` for the first serial brick,
    `Serial.println` actions, serial-input conditions with their quotes
    removed, the search for a serial condition in a logical-expression
    tree, and the `Serial.available()` block around serial checks. */
module SerialBricks {
  import opened Common
  import opened Ast

  // ------------------------------------------------------------ setup

  /** `app.bricks.find(b => b.$type === 'SerialBrick')`. */
  function FirstSerialBrick(bricks: seq<Brick>): (r: Option<Brick>)
    ensures r.None? <==> forall i :: 0 <= i < |bricks| ==> bricks[i].kind != SerialBrick
    ensures r.Some? ==> exists k :: (0 <= k < |bricks| && bricks[k] == r.value
      && r.value.kind == SerialBrick
      && forall j :: 0 <= j < k ==> bricks[j].kind != SerialBrick)
  {
    if bricks == [] then None
    else if bricks[0].kind == SerialBrick then
      Some(bricks[0])
    else
      var r := FirstSerialBrick(bricks[1..]);
      assert forall i :: 1 <= i < |bricks| ==> bricks[i] == bricks[1..][i - 1];
      if r.Some? then
        var k :| 0 <= k < |bricks[1..]| && bricks[1..][k] == r.value
          && forall j :: 0 <= j < k ==> bricks[1..][j].kind != SerialBrick;
        assert bricks[k + 1] == r.value;
        assert forall j :: 0 <= j < k + 1 ==> bricks[j].kind != SerialBrick by {
          forall j | 0 <= j < k + 1
            ensures bricks[j].kind != SerialBrick
          {
            if j > 0 {
              assert bricks[j] == bricks[1..][j - 1];
            }
          }
        }
        r
      else r
  }

  function SerialBeginLine(b: Brick): string
  {
    "\n\t\tSerial.begin(" + IntToString(b.baudRate) + "); // " + b.name
  }

  /** What `initializeSerial` appends. */
  function InitializeSerialFragments(bricks: seq<Brick>): seq<string>
  {
    var first := FirstSerialBrick(bricks);
    if first.Some? then [SerialBeginLine(first.value)] else []
  }

  method InitializeSerial(app: App, f: FileNode)
    modifies f
    ensures f.parts == old(f.parts) + InitializeSerialFragments(app.bricks)
  {
    var i := 0;
    while i < |app.bricks|
      invariant 0 <= i <= |app.bricks|
      invariant forall j :: 0 <= j < i ==> app.bricks[j].kind != SerialBrick
    {
      if app.bricks[i].kind == SerialBrick {
        f.Append(SerialBeginLine(app.bricks[i]));
        return;
      }
      i := i + 1;
    }
  }

  // ------------------------------------------------------------ messages

  predicate IsQuote(c: char)
  {
    c == '"' || c == '\''
  }

  /** `message.replace(/^["']|["']$/g, '')`: one quote character is removed
      at the start and one at the end; a message that is a single quote
      character becomes empty. At most one character goes at each end and
      the rest is untouched. */
  function StripQuotes(s: string): (r: string)
    ensures var i := if |s| >= 1 && IsQuote(s[0]) then 1 else 0;
      && i + |r| <= |s| <= i + |r| + 1
      && r == s[i..i + |r|]
    ensures var i := if |s| >= 1 && IsQuote(s[0]) then 1 else 0;
      (|s| == i + |r| + 1) <==> (|s| > i && IsQuote(s[|s| - 1]))
  {
    var front := if |s| >= 1 && IsQuote(s[0]) then s[1..] else s;
    if |front| >= 1 && IsQuote(front[|front| - 1]) then front[..|front| - 1] else front
  }

  function SerialPrintLine(message: string): string
  {
    "\n\t\t\t\t\tSerial.println(\"" + StripQuotes(message) + "\");"
  }

  /** What `compileSerialAction` appends: nothing unless the action names a
      serial brick and a non-empty message. */
  function SerialActionFragments(a: Action): seq<string>
  {
    if !a.serial.NoLink? && a.message != "" then [SerialPrintLine(a.message)] else []
  }

  method CompileSerialAction(a: Action, f: FileNode)
    modifies f
    ensures f.parts == old(f.parts) + SerialActionFragments(a)
  {
    if !a.serial.NoLink? && a.message != "" {
      var message := StripQuotes(a.message);
      f.Append("\n\t\t\t\t\tSerial.println(\"" + message + "\");");
    }
  }

  // ------------------------------------------------------------ conditions

  /** `isSerialCondition`: a serial brick and a non-empty message. */
  predicate IsSerialCondition(c: Condition)
  {
    !c.serial.NoLink? && c.message != ""
  }

  /** `compileSerialCondition`: a comparison of the trimmed serial input with
      the unquoted message, or `''`. */
  function CompileSerialCondition(c: Condition): (r: string)
    ensures r != "" <==> IsSerialCondition(c)
  {
    if IsSerialCondition(c) then "serialInput == \"" + StripQuotes(c.message) + "\"" else ""
  }

  /** `hasSerialCondition`, over the logical-expression tree. */
  predicate HasSerialCondition(e: Expr)
  {
    match e
    case BinaryExpression(left, _, right) => HasSerialCondition(left) || HasSerialCondition(right)
    case ConditionNode(c) => IsSerialCondition(c)
    case OtherNode => false
  }

  /** The condition leaves of a tree, left to right. */
  function Leaves(e: Expr): seq<Condition>
  {
    match e
    case BinaryExpression(left, _, right) => Leaves(left) + Leaves(right)
    case ConditionNode(c) => [c]
    case OtherNode => []
  }

  /** The tree holds a serial condition exactly when one of its leaves is one. */
  lemma {:induction false} HasSerialConditionLeaves(e: Expr)
    ensures HasSerialCondition(e) <==> exists c :: c in Leaves(e) && IsSerialCondition(c)
  {
    match e
    case BinaryExpression(left, _, right) =>
      HasSerialConditionLeaves(left);
      HasSerialConditionLeaves(right);
      assert forall c :: c in Leaves(e) <==> c in Leaves(left) || c in Leaves(right);
    case ConditionNode(c) =>
      assert Leaves(e) == [c];
    case OtherNode =>
  }

  // ------------------------------------------------------------ the check block

  const OPEN_SERIAL_CHECK: string :=
    "\n\t\t\t\t\tif (Serial.available()) {\n\t\t\t\t\t\tString serialInput = Serial.readStringUntil('\\n');\n\t\t\t\t\t\tserialInput.trim();"
  const CLOSE_SERIAL_CHECK: string := "\n\t\t\t\t\t}"

  method OpenSerialCheckBlock(f: FileNode)
    modifies f
    ensures f.parts == old(f.parts) + [OPEN_SERIAL_CHECK]
  {
    f.Append(OPEN_SERIAL_CHECK);
  }

  method CloseSerialCheckBlock(f: FileNode)
    modifies f
    ensures f.parts == old(f.parts) + [CLOSE_SERIAL_CHECK]
  {
    f.Append(CLOSE_SERIAL_CHECK);
  }

  // ------------------------------------------------------------ properties

  /** A message wrapped in quotes of either kind comes back unwrapped. */
  lemma StripQuotesOfQuoted(x: string, open: char, close: char)
    requires IsQuote(open) && IsQuote(close)
    ensures StripQuotes([open] + x + [close]) == x
  {
    var s := [open] + x + [close];
    assert s[1..] == x + [close];
    assert (x + [close])[..|x|] == x;
  }

  /** A message without quotes at either end is left as it is. */
  lemma StripQuotesUnquoted(s: string)
    requires s == [] || (!IsQuote(s[0]) && !IsQuote(s[|s| - 1]))
    ensures StripQuotes(s) == s
  {
  }

  /** A serial brick is set up exactly when one exists, and it is the first. */
  lemma InitializeSerialSpec(bricks: seq<Brick>)
    ensures |InitializeSerialFragments(bricks)| <= 1
    ensures InitializeSerialFragments(bricks) != [] <==> exists b :: b in bricks && b.kind == SerialBrick
  {
    if InitializeSerialFragments(bricks) == [] {
      forall b | b in bricks
        ensures b.kind != SerialBrick
      {
        var i :| 0 <= i < |bricks| && bricks[i] == b;
      }
    }
  }
}
