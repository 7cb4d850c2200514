/** The Langium side of ArduinoML as the code generators see it: the
    resolved model (bricks, conditions, actions, states, machines) and the
    append-only text buffer the generators write into. */
module Ast {
  import opened Common

  /** A property of a Langium node: `Missing` when the node has no such key
      at all (`'inputPin' in brick` is false), `Unset` when the key is there
      but holds `undefined`, `Set(v)` when it holds a value. */
  datatype Field<T> = Missing | Unset | Set(value: T)

  /** A cross-reference property: absent (`NoLink`), present but not
      resolved (`.ref` is `undefined`), or resolved to a node. */
  datatype Link<T> = NoLink | Unresolved | Resolved(target: T)

  /** The `$type` tag of a brick node. */
  datatype BrickKind =
    | Actuator
    | Sensor
    | AnalogActuator
    | AnalogSensor
    | TemperatureSensor
    | SerialBrick
    | OtherBrick(tag: string)

  datatype Brick = Brick(
    kind: BrickKind,
    name: string,
    inputPin: Field<int>,
    outputPin: Field<int>,
    actuatorType: Field<string>,
    sensorType: Field<string>,
    baudRate: int)

  /** JavaScript's rendering of a possibly undefined number in a template. */
  function NumberText(f: Field<int>): string
  {
    if f.Set? then IntToString(f.value) else "undefined"
  }

  /** `${x?.inputPin}` for a cross-referenced brick. */
  function LinkedInputPin(l: Link<Brick>): string
  {
    if l.Resolved? then NumberText(l.target.inputPin) else "undefined"
  }

  /** `${x?.outputPin}` for a cross-referenced brick. */
  function LinkedOutputPin(l: Link<Brick>): string
  {
    if l.Resolved? then NumberText(l.target.outputPin) else "undefined"
  }

  /** `${v?.value}` for an optional signal literal. */
  function OptionText(o: Option<string>): string
  {
    if o.Some? then o.value else "undefined"
  }

  /** A leaf condition of a transition. `operator` is `""` when absent. */
  datatype Condition = Condition(
    brick: Link<Brick>,
    value: Option<string>,
    analogBrick: Link<Brick>,
    operator: string,
    threshold: Option<int>,
    serial: Link<Brick>,
    message: string)

  datatype AnalogValue = AnalogValue(intValue: Option<int>, sensorValue: Link<Brick>)

  /** An action of a state. `message` is `""` when absent. */
  datatype Action = Action(
    actuator: Link<Brick>,
    value: Option<string>,
    analogActuator: Link<Brick>,
    analogValue: Option<AnalogValue>,
    serial: Link<Brick>,
    message: string)

  /** One part of an LCD message: quoted constant text, or the live status
      of a (possibly unresolved) brick. */
  datatype LcdPart = ConstantPart(text: string) | BrickStatusPart(brick: Option<Brick>)

  /** A flat transition: conditions joined left to right by `operators`. */
  datatype Transition = Transition(conditions: seq<Condition>, operators: seq<string>, next: Option<string>)

  datatype State = State(name: string, actions: seq<Action>, transition: Option<Transition>)

  datatype Machine = Machine(name: string, states: seq<State>, initial: Option<string>, period: int)

  /** The application. Langium initialises list properties to `[]`, so
      `states` and `machines` are always present (possibly empty). */
  datatype App = App(
    name: string,
    bricks: seq<Brick>,
    states: seq<State>,
    initial: Option<string>,
    machines: seq<Machine>)

  /** The logical-expression tree of the multi-machine grammar. */
  datatype Expr =
    | BinaryExpression(left: Expr, op: string, right: Expr)
    | ConditionNode(cond: Condition)
    | OtherNode

  /** The generator's output node: an append-only sequence of text fragments. */
  class FileNode {
    var parts: seq<string>

    constructor()
      ensures parts == []
    {
      parts := [];
    }

    function Text(): string
      reads this
    {
      Concat(parts)
    }

    /** `fileNode.append(s)`. */
    method Append(s: string)
      modifies this
      ensures parts == old(parts) + [s]
    {
      parts := parts + [s];
    }

    /** `fileNode.append(fragments...)`, several fragments in order. */
    method AppendAll(ss: seq<string>)
      modifies this
      ensures parts == old(parts) + ss
    {
      parts := parts + ss;
    }
  }

  /** The line break Langium's `NL` stands for. */
  const NL: string := "\n"
}
