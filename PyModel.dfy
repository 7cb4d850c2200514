/** The Python object model of pyArduinoML as far as the builders use it:
    composite conditions (`SensorCondition` leaves under `AndCondition`,
    `OrCondition` and `NotCondition` nodes) rendered to Arduino C text,
    transitions with their condition default, and states. */
module PyModel {
  import opened Common

  datatype Signal = HIGH | LOW

  /** `SIGNAL.value`, the text of a signal in generated code. The `SIGNAL`
      module is not part of this model; it is taken to give the name. */
  function SignalValue(s: Signal): string
  {
    match s
    case HIGH => "HIGH"
    case LOW => "LOW"
  }

  /** A brick as the conditions see it: its name and its pin. */
  datatype PyBrick = PyBrick(name: string, pin: int)

  /** The composite-condition tree. */
  datatype Condition =
    | SensorCondition(sensor: PyBrick, value: Signal)
    | AndCondition(conditions: seq<Condition>)
    | OrCondition(conditions: seq<Condition>)
    | NotCondition(condition: Condition)

  /** The shared rendering of AND and OR: `empty` with no child, the child
      itself with one, otherwise the children joined by `sep` in
      parentheses. */
  function Composite(children: seq<string>, sep: string, empty: string): string
  {
    if |children| == 0 then empty
    else if |children| == 1 then children[0]
    else "(" + Join(children, sep) + ")"
  }

  /** `evaluate()` on every node of the tree. */
  function Evaluate(c: Condition): string
    decreases c
  {
    match c
    case SensorCondition(sensor, value) => "digitalRead(" + sensor.name + ") == " + SignalValue(value)
    case AndCondition(cs) => Composite(EvaluateAll(cs), " && ", "true")
    case OrCondition(cs) => Composite(EvaluateAll(cs), " || ", "false")
    case NotCondition(inner) => "!(" + Evaluate(inner) + ")"
  }

  /** `[c.evaluate() for c in conditions]`. */
  function EvaluateAll(cs: seq<Condition>): (r: seq<string>)
    ensures |r| == |cs|
    decreases cs
  {
    if cs == [] then [] else EvaluateAll(cs[..|cs| - 1]) + [Evaluate(cs[|cs| - 1])]
  }

  /** An `AndCondition` or `OrCondition` object, whose `add` appends to its
      list of children in place. */
  class CompositeCondition {
    var isAnd: bool
    var conditions: seq<Condition>

    /** `AndCondition(*conditions)` or `OrCondition(*conditions)`. */
    constructor (isAnd: bool, conditions: seq<Condition>)
      ensures this.isAnd == isAnd && this.conditions == conditions
    {
      this.isAnd := isAnd;
      this.conditions := conditions;
    }

    /** The tree this object currently stands for. */
    function Value(): Condition
      reads this
    {
      if isAnd then AndCondition(conditions) else OrCondition(conditions)
    }

    /** `add(condition)`: the new child goes last; the others stay. */
    method Add(condition: Condition)
      modifies this
      ensures conditions == old(conditions) + [condition]
      ensures isAnd == old(isAnd)
    {
      conditions := conditions + [condition];
    }
  }

  /** `pyArduinoML.model.State` is not part of this model; a state holds the
      fields the builders read and write: its name, its actions and its
      transition, which `get_contents2` sets in place. */
  class PyState {
    var name: string
    var actions: seq<PyAction>
    var transition: Option<Transition>

    constructor (name: string, actions: seq<PyAction>)
      ensures this.name == name && this.actions == actions && transition.None?
    {
      this.name := name;
      this.actions := actions;
      transition := None;
    }
  }

  /** An action as its builder describes it: the actuator's name and the
      signal it is set to, if one was given. */
  datatype PyAction = PyAction(actuator: string, value: Option<Signal>)

  /** A transition: the (deprecated) sensor and value, the state to go to and
      the condition actually evaluated. */
  datatype Transition = Transition(sensor: Option<PyBrick>, value: Option<Signal>, nextstate: PyState,
                                   condition: Option<Condition>)

  /** `Transition(sensor, value, nextstate, condition)`: with no condition
      and a sensor, the condition is the sensor test; otherwise the condition
      given is kept, even when a sensor is given too. */
  function NewTransition(sensor: Option<PyBrick>, value: Option<Signal>, nextstate: PyState,
                         condition: Option<Condition>): (t: Transition)
    requires condition.None? && sensor.Some? ==> value.Some?
    ensures t.sensor == sensor && t.value == value && t.nextstate == nextstate
    ensures condition.None? && sensor.Some? ==> t.condition == Some(SensorCondition(sensor.value, value.value))
    ensures condition.Some? ==> t.condition == condition
    ensures condition.None? && sensor.None? ==> t.condition.None?
  {
    var c := if condition.None? && sensor.Some? then Some(SensorCondition(sensor.value, value.value)) else condition;
    Transition(sensor, value, nextstate, c)
  }

  /** `evaluate_condition()`: the condition's text, or `None` where Python
      raises because the transition has no condition. */
  function EvaluateCondition(t: Transition): Option<string>
  {
    if t.condition.Some? then Some(Evaluate(t.condition.value)) else None
  }

  // ------------------------------------------------------------ properties

  /** An empty AND is `true`, an empty OR is `false`, and a single child is
      rendered without added parentheses. */
  lemma CompositeEdges(c: Condition)
    ensures Evaluate(AndCondition([])) == "true" && Evaluate(OrCondition([])) == "false"
    ensures Evaluate(AndCondition([c])) == Evaluate(c) && Evaluate(OrCondition([c])) == Evaluate(c)
  {
    assert EvaluateAll([c]) == [Evaluate(c)] by {
      assert [c][..0] == [];
    }
  }

  /** Appending a child to two or more: the new text goes after `sep`,
      just before the closing parenthesis. */
  lemma CompositeSnoc(children: seq<string>, x: string, sep: string, empty: string)
    requires |children| >= 2
    ensures var old_ := Composite(children, sep, empty);
      Composite(children + [x], sep, empty) == old_[..|old_| - 1] + sep + x + ")"
  {
    JoinSnoc(children, x, sep);
    var j := Join(children, sep);
    var a := "(" + j;
    assert Composite(children, sep, empty) == a + ")";
    assert (a + ")")[..|a + ")"| - 1] == a;
    assert Composite(children + [x], sep, empty) == "(" + (j + sep + x) + ")";
  }

  lemma EvaluateAllSnoc(cs: seq<Condition>, c: Condition)
    ensures EvaluateAll(cs + [c]) == EvaluateAll(cs) + [Evaluate(c)]
  {
    assert (cs + [c])[..|cs + [c]| - 1] == cs;
  }

  /** Adding a child to a node of two or more children inserts the new
      child's text, after the separator, just before the closing
      parenthesis. */
  lemma AddExtendsRendering(cs: seq<Condition>, c: Condition)
    requires |cs| >= 2
    ensures var old_ := Evaluate(AndCondition(cs));
      Evaluate(AndCondition(cs + [c])) == old_[..|old_| - 1] + " && " + Evaluate(c) + ")"
    ensures var old_ := Evaluate(OrCondition(cs));
      Evaluate(OrCondition(cs + [c])) == old_[..|old_| - 1] + " || " + Evaluate(c) + ")"
  {
    EvaluateAllSnoc(cs, c);
    CompositeSnoc(EvaluateAll(cs), Evaluate(c), " && ", "true");
    CompositeSnoc(EvaluateAll(cs), Evaluate(c), " || ", "false");
  }

  /** Grouping follows the tree only: `((a && b) || c) && d`, built as
      nested nodes, renders with one pair of parentheses per node of two
      children. */
  lemma NestedGrouping(a: Condition, b: Condition, c: Condition, d: Condition)
    ensures Evaluate(AndCondition([OrCondition([AndCondition([a, b]), c]), d]))
      == Parenthesized(Parenthesized(Parenthesized(Evaluate(a), " && ", Evaluate(b)), " || ", Evaluate(c)),
                       " && ", Evaluate(d))
  {
    var ab := AndCondition([a, b]);
    var abc := OrCondition([ab, c]);
    PairRendering(AndCondition([abc, d]), abc, d, " && ");
    PairRendering(abc, ab, c, " || ");
    PairRendering(ab, a, b, " && ");
  }

  function Parenthesized(x: string, sep: string, y: string): string
  {
    "(" + x + sep + y + ")"
  }

  /** A node of exactly two children renders as `(x sep y)`. */
  lemma PairRendering(n: Condition, x: Condition, y: Condition, sep: string)
    requires (n == AndCondition([x, y]) && sep == " && ") || (n == OrCondition([x, y]) && sep == " || ")
    ensures Evaluate(n) == Parenthesized(Evaluate(x), sep, Evaluate(y))
  {
    EvaluatePair(x, y);
    if n.AndCondition? {
      assert Evaluate(n) == Composite(EvaluateAll([x, y]), " && ", "true");
      CompositePair(Evaluate(x), Evaluate(y), sep, "true");
    } else {
      assert Evaluate(n) == Composite(EvaluateAll([x, y]), " || ", "false");
      CompositePair(Evaluate(x), Evaluate(y), sep, "false");
    }
  }

  lemma CompositePair(a: string, b: string, sep: string, empty: string)
    ensures Composite([a, b], sep, empty) == Parenthesized(a, sep, b)
  {
    JoinPair(a, b, sep);
    assert "(" + (a + sep + b) + ")" == "(" + a + sep + b + ")";
  }

  lemma EvaluatePair(x: Condition, y: Condition)
    ensures EvaluateAll([x, y]) == [Evaluate(x), Evaluate(y)]
  {
    assert [x, y][..1] == [x];
    assert [x][..0] == [];
  }

  lemma JoinPair(a: string, b: string, sep: string)
    ensures Join([a, b], sep) == a + sep + b
  {
    assert [a, b][1..] == [b];
  }

  /** A transition built from a sensor and a value alone evaluates to that
      sensor's test; an explicit condition is evaluated instead. */
  lemma TransitionConditionDefault(sensor: PyBrick, value: Signal, next: PyState, condition: Option<Condition>)
    ensures condition.None? ==>
      EvaluateCondition(NewTransition(Some(sensor), Some(value), next, condition))
        == Some("digitalRead(" + sensor.name + ") == " + SignalValue(value))
    ensures condition.Some? ==>
      EvaluateCondition(NewTransition(Some(sensor), Some(value), next, condition)) == Some(Evaluate(condition.value))
    ensures EvaluateCondition(NewTransition(None, None, next, None)).None?
  {
  }

  // ------------------------------------------------------------ bracketing

  /** The number of `(` minus the number of `)`. */
  function Depth(s: string): int
  {
    if s == [] then 0
    else Depth(s[..|s| - 1]) + (if s[|s| - 1] == '(' then 1 else if s[|s| - 1] == ')' then -1 else 0)
  }

  /** Every prefix opens at least as many parentheses as it closes, and the
      whole text closes all it opens. */
  ghost predicate WellBracketed(s: string)
  {
    Depth(s) == 0 && forall k :: 0 <= k <= |s| ==> Depth(s[..k]) >= 0
  }

  predicate ParenFree(s: string)
  {
    '(' !in s && ')' !in s
  }

  /** No brick of the tree has a parenthesis in its name. */
  predicate NamesParenFree(c: Condition)
    decreases c
  {
    match c
    case SensorCondition(sensor, _) => ParenFree(sensor.name)
    case AndCondition(cs) => forall i :: 0 <= i < |cs| ==> NamesParenFree(cs[i])
    case OrCondition(cs) => forall i :: 0 <= i < |cs| ==> NamesParenFree(cs[i])
    case NotCondition(inner) => NamesParenFree(inner)
  }

  lemma {:induction false} DepthAppend(s: string, t: string)
    ensures Depth(s + t) == Depth(s) + Depth(t)
    decreases |t|
  {
    if t == [] {
      assert s + t == s;
    } else {
      assert (s + t)[..|s + t| - 1] == s + t[..|t| - 1];
      DepthAppend(s, t[..|t| - 1]);
    }
  }

  lemma {:induction false} ParenFreeDepth(s: string)
    requires ParenFree(s)
    ensures forall k :: 0 <= k <= |s| ==> Depth(s[..k]) == 0
    decreases |s|
  {
    if s != [] {
      ParenFreeDepth(s[..|s| - 1]);
      assert forall k :: 0 <= k < |s| ==> s[..k] == s[..|s| - 1][..k];
      assert s[..|s|] == s;
    }
  }

  lemma ParenFreeWell(s: string)
    requires ParenFree(s)
    ensures WellBracketed(s)
  {
    ParenFreeDepth(s);
    assert s[..|s|] == s;
  }

  lemma WellAppend(s: string, t: string)
    requires WellBracketed(s) && WellBracketed(t)
    ensures WellBracketed(s + t)
  {
    DepthAppend(s, t);
    forall k | 0 <= k <= |s + t|
      ensures Depth((s + t)[..k]) >= 0
    {
      if k <= |s| {
        assert (s + t)[..k] == s[..k];
      } else {
        assert (s + t)[..k] == s + t[..k - |s|];
        DepthAppend(s, t[..k - |s|]);
        assert s[..|s|] == s;
      }
    }
  }

  /** Wrapping in parentheses keeps a text well bracketed. */
  lemma WellWrap(s: string)
    requires WellBracketed(s)
    ensures WellBracketed("(" + s + ")")
  {
    var w := "(" + s + ")";
    DepthAppend("(" + s, ")");
    DepthAppend("(", s);
    forall k | 0 <= k <= |w|
      ensures Depth(w[..k]) >= 0
    {
      if k == 0 {
        assert w[..k] == [];
      } else if k <= |s| + 1 {
        assert w[..k] == "(" + s[..k - 1];
        DepthAppend("(", s[..k - 1]);
      } else {
        assert w[..k] == w;
      }
    }
  }

  lemma {:induction false} WellJoin(parts: seq<string>, sep: string)
    requires ParenFree(sep)
    requires forall i :: 0 <= i < |parts| ==> WellBracketed(parts[i])
    ensures WellBracketed(Join(parts, sep))
  {
    if |parts| == 0 {
      assert Depth("") == 0;
    } else if |parts| > 1 {
      WellJoin(parts[1..], sep);
      ParenFreeWell(sep);
      WellAppend(parts[0], sep);
      WellAppend(parts[0] + sep, Join(parts[1..], sep));
    }
  }

  /** When no brick name holds a parenthesis, the rendering of any tree is
      well bracketed: the parentheses `evaluate` adds always pair up. */
  lemma {:induction false} EvaluateWellBracketed(c: Condition)
    requires NamesParenFree(c)
    ensures WellBracketed(Evaluate(c))
    decreases c
  {
    match c
    case SensorCondition(sensor, value) =>
      LeafWell(sensor.name, SignalValue(value));
    case AndCondition(cs) =>
      EvaluateAllWell(cs);
      CompositeWell(EvaluateAll(cs), " && ", "true");
    case OrCondition(cs) =>
      EvaluateAllWell(cs);
      CompositeWell(EvaluateAll(cs), " || ", "false");
    case NotCondition(inner) =>
      EvaluateWellBracketed(inner);
      NotWell(Evaluate(inner));
  }

  lemma LeafWell(name: string, signal: string)
    requires ParenFree(name) && ParenFree(signal)
    ensures WellBracketed("digitalRead(" + name + ") == " + signal)
  {
    var tail := " == " + signal;
    assert "digitalRead(" + name + ") == " + signal == "digitalRead(" + name + ")" + tail;
    ParenFreeWell("digitalRead");
    ParenFreeWell(name);
    ParenFreeWell(tail);
    WellWrap(name);
    WellAppend("digitalRead", "(" + name + ")");
    WellAppend("digitalRead" + ("(" + name + ")"), tail);
    assert "digitalRead" + ("(" + name + ")") + tail == "digitalRead(" + name + ")" + tail;
  }

  lemma NotWell(s: string)
    requires WellBracketed(s)
    ensures WellBracketed("!(" + s + ")")
  {
    WellWrap(s);
    ParenFreeWell("!");
    WellAppend("!", "(" + s + ")");
    assert "!" + ("(" + s + ")") == "!(" + s + ")";
  }

  lemma {:induction false} EvaluateAllWell(cs: seq<Condition>)
    requires forall i :: 0 <= i < |cs| ==> NamesParenFree(cs[i])
    ensures forall i :: 0 <= i < |cs| ==> WellBracketed(EvaluateAll(cs)[i])
    decreases cs
  {
    if cs != [] {
      var init := cs[..|cs| - 1];
      EvaluateAllWell(init);
      EvaluateWellBracketed(cs[|cs| - 1]);
    }
  }

  lemma CompositeWell(children: seq<string>, sep: string, empty: string)
    requires ParenFree(sep) && ParenFree(empty)
    requires forall i :: 0 <= i < |children| ==> WellBracketed(children[i])
    ensures WellBracketed(Composite(children, sep, empty))
  {
    if |children| == 0 {
      ParenFreeWell(empty);
    } else if |children| > 1 {
      WellJoin(children, sep);
      WellWrap(Join(children, sep));
    }
  }
}
