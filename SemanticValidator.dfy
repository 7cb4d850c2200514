/** The semantic checks run on a parse tree: a visitor that records the
    declared bricks and states, appends an error for each rule a node breaks,
    and checks the states named by transitions only once the whole tree has
    been visited. Each visit method is proved against a function from the
    validator's state before the visit to its state after. */
module SemanticValidator {
  import opened Common
  import opened BnfParser

  /** What the validator has collected: the errors so far, each declared
      brick name with its kind (`"sensor"` or `"actuator"`), the declared
      state names, the application's name and the transition targets. */
  datatype VState = VState(errors: seq<string>, bricks: map<PyValue, string>, states: set<PyValue>,
                           appName: PyValue, targets: seq<PyValue>)

  /** The state `validate` starts every run from. */
  function Initial(): VState
  {
    VState([], map[], {}, NoValue, [])
  }

  /** `f"{v}"` of a node value. */
  function Show(v: PyValue): string
  {
    match v
    case NoValue => "None"
    case Str(s) => s
    case Int(i) => IntToString(i)
  }

  const EMPTY_APP_NAME := "Application name cannot be empty"

  // ------------------------------------------------------------ child values

  /** The value of the last child of the given type, or `None`: the loops
      that keep overwriting a variable for each matching child. */
  function LastValue(cs: seq<ParseNode>, kind: string): (v: PyValue)
    ensures (forall i :: 0 <= i < |cs| ==> cs[i].kind != kind) ==> v == NoValue
  {
    if cs == [] then NoValue
    else if cs[|cs| - 1].kind == kind then cs[|cs| - 1].value
    else LastValue(cs[..|cs| - 1], kind)
  }

  /** The child at `i` is the last of its type: its value is the one kept. */
  lemma {:induction false} LastValueAt(cs: seq<ParseNode>, kind: string, i: nat)
    requires i < |cs| && cs[i].kind == kind
    requires forall j :: i < j < |cs| ==> cs[j].kind != kind
    ensures LastValue(cs, kind) == cs[i].value
  {
    if i < |cs| - 1 {
      var init := cs[..|cs| - 1];
      assert init[i] == cs[i];
      LastValueAt(init, kind, i);
    }
  }

  /** The value of the first child of the given type: the loops that stop at
      the first match. */
  function FirstValue(cs: seq<ParseNode>, kind: string): (r: Option<PyValue>)
    ensures r.None? <==> forall i :: 0 <= i < |cs| ==> cs[i].kind != kind
    ensures r.Some? ==>
      exists i :: 0 <= i < |cs| && cs[i].kind == kind && r.value == cs[i].value && forall j :: 0 <= j < i ==> cs[j].kind != kind
  {
    if cs == [] then None
    else if cs[0].kind == kind then Some(cs[0].value)
    else
      var r := FirstValue(cs[1..], kind);
      assert forall j :: 1 <= j < |cs| ==> cs[j] == cs[1..][j - 1];
      r
  }

  // ------------------------------------------------------------ the rules

  /** `_visit_sensor` / `_visit_actuator`: a named brick is recorded with
      its kind unless the name is taken, in which case the first kind stays
      and a duplicate error is added. */
  function DeclareBrick(st: VState, name: PyValue, kind: string): (r: VState)
    ensures r.states == st.states && r.targets == st.targets && r.appName == st.appName
    ensures forall k :: k in st.bricks ==> k in r.bricks && r.bricks[k] == st.bricks[k]
    ensures Truthy(name) ==> name in r.bricks
    ensures Truthy(name) && name !in st.bricks ==> r.bricks == st.bricks[name := kind] && r.errors == st.errors
    ensures Truthy(name) && name in st.bricks ==> (r.bricks == st.bricks
      && r.errors == st.errors + ["Duplicate brick name '" + Show(name) + "': already declared as " + st.bricks[name]])
    ensures !Truthy(name) ==> r == st
  {
    if !Truthy(name) then st
    else if name in st.bricks then
      st.(errors := st.errors + ["Duplicate brick name '" + Show(name) + "': already declared as " + st.bricks[name]])
    else st.(bricks := st.bricks[name := kind])
  }

  /** The first part of `_visit_state`: the state's first `name` child is
      added to the declared states, or reported as a duplicate. */
  function DeclareState(st: VState, cs: seq<ParseNode>): (r: VState)
    ensures r.bricks == st.bricks && r.targets == st.targets && r.appName == st.appName
    ensures FirstValue(cs, "name").Some? ==> r.states == st.states + {FirstValue(cs, "name").value}
    ensures FirstValue(cs, "name").None? ==> r == st
    ensures r.errors == st.errors + (if FirstValue(cs, "name").Some? && FirstValue(cs, "name").value in st.states
      then ["Duplicate state name '" + Show(FirstValue(cs, "name").value) + "'"] else [])
  {
    match FirstValue(cs, "name")
    case None => st
    case Some(name) =>
      if name in st.states then st.(errors := st.errors + ["Duplicate state name '" + Show(name) + "'"])
      else st.(states := st.states + {name})
  }

  /** The first part of `_visit_application`: the first `app_name` child's
      value is kept, and a falsy one is an error. */
  function CheckAppName(st: VState, cs: seq<ParseNode>): (r: VState)
    ensures r.bricks == st.bricks && r.states == st.states && r.targets == st.targets
    ensures r.errors == st.errors + (if FirstValue(cs, "app_name").Some? && !Truthy(FirstValue(cs, "app_name").value)
      then [EMPTY_APP_NAME] else [])
  {
    match FirstValue(cs, "app_name")
    case None => st
    case Some(name) => st.(appName := name, errors := st.errors + (if Truthy(name) then [] else [EMPTY_APP_NAME]))
  }

  /** The actuator check of `_visit_action`. */
  function ActuatorErrors(bricks: map<PyValue, string>, a: PyValue): (r: seq<string>)
    ensures r == [] <==> !Truthy(a) || (a in bricks && bricks[a] == "actuator")
    ensures |r| <= 1
  {
    if !Truthy(a) then []
    else if a !in bricks then ["Undefined brick '" + Show(a) + "' in action"]
    else if bricks[a] != "actuator" then ["Cannot set '" + Show(a) + "': it is a " + bricks[a] + ", not an actuator"]
    else []
  }

  /** The sensor check of `_visit_simple_transition` (`where` is
      `"transition"`) and `_visit_condition` (`"condition"`). */
  function SensorErrors(bricks: map<PyValue, string>, s: PyValue, where: string): (r: seq<string>)
    ensures r == [] <==> !Truthy(s) || (s in bricks && bricks[s] == "sensor")
    ensures |r| <= 1
  {
    if !Truthy(s) then []
    else if s !in bricks then ["Undefined brick '" + Show(s) + "' in " + where]
    else if bricks[s] != "sensor" then ["Cannot check '" + Show(s) + "' in " + where + ": it is an " + bricks[s] + ", not a sensor"]
    else []
  }

  /** The signal check shared by actions, transitions and conditions. */
  function SignalErrors(sig: PyValue): (r: seq<string>)
    ensures r == [] <==> !Truthy(sig) || sig == Str("HIGH") || sig == Str("LOW")
    ensures |r| <= 1
  {
    if Truthy(sig) && sig != Str("HIGH") && sig != Str("LOW") then
      ["Invalid signal value '" + Show(sig) + "': must be HIGH or LOW"]
    else []
  }

  /** A truthy target is recorded for the check at the end. */
  function AddTarget(targets: seq<PyValue>, target: PyValue): (r: seq<PyValue>)
    ensures r == targets || r == targets + [target]
    ensures Truthy(target) <==> |r| == |targets| + 1
  {
    if Truthy(target) then targets + [target] else targets
  }

  /** `validate_target_states`: one error per target, in order, that names
      no declared state. */
  function TargetErrors(targets: seq<PyValue>, states: set<PyValue>): (r: seq<string>)
    ensures r == [] <==> forall t :: t in targets ==> t in states
    ensures |r| <= |targets|
  {
    if targets == [] then []
    else
      (if targets[0] in states then [] else ["Undefined state '" + Show(targets[0]) + "' referenced in transition"])
      + TargetErrors(targets[1..], states)
  }

  // ------------------------------------------------------------ the visit

  /** `_visit(node)`: the rule named after the node's type, or a visit of
      its children. */
  function Visit(st: VState, n: ParseNode): VState
    decreases n, 1
  {
    if n.kind == "application" then VisitChildren(CheckAppName(st, n.children), n.children)
    else if n.kind == "sensor" || n.kind == "actuator" then DeclareBrick(st, LastValue(n.children, "name"), n.kind)
    else if n.kind == "state" then VisitChildren(DeclareState(st, n.children), n.children)
    else if n.kind == "action" then
      st.(errors := st.errors + ActuatorErrors(st.bricks, LastValue(n.children, "actuator"))
        + SignalErrors(LastValue(n.children, "signal")))
    else if n.kind == "simple_transition" then
      st.(errors := st.errors + SensorErrors(st.bricks, LastValue(n.children, "sensor"), "transition")
          + SignalErrors(LastValue(n.children, "signal")),
        targets := AddTarget(st.targets, LastValue(n.children, "next_state")))
    else if n.kind in {"and_transition", "or_transition", "compound_transition"} then VisitCompound(st, n)
    else if n.kind == "condition" then
      st.(errors := st.errors + SensorErrors(st.bricks, LastValue(n.children, "sensor"), "condition")
        + SignalErrors(LastValue(n.children, "signal")))
    else VisitChildren(st, n.children)
  }

  /** `_visit_compound_transition`: every child but `next_state` is
      visited, and the last `next_state` becomes a target. */
  function VisitCompound(st: VState, n: ParseNode): VState
    decreases n, 0
  {
    var after := VisitOthers(st, n.children);
    after.(targets := AddTarget(after.targets, LastValue(n.children, "next_state")))
  }

  function VisitChildren(st: VState, ns: seq<ParseNode>): VState
    decreases ns
  {
    if ns == [] then st else VisitChildren(Visit(st, ns[0]), ns[1..])
  }

  function VisitOthers(st: VState, ns: seq<ParseNode>): VState
    decreases ns
  {
    if ns == [] then st
    else VisitOthers(if ns[0].kind == "next_state" then st else Visit(st, ns[0]), ns[1..])
  }

  /** `validate(tree)`: a visit from the initial state, then the target
      check; valid exactly when no error was found, and no warning is ever
      produced. */
  function SemanticsSpec(tree: ParseNode): (r: (bool, seq<string>, seq<string>))
    ensures r.0 <==> r.1 == []
    ensures r.2 == []
  {
    var st := Visit(Initial(), tree);
    var errors := st.errors + TargetErrors(st.targets, st.states);
    (errors == [], errors, [])
  }

  // ------------------------------------------------------------ properties

  /** What a state later in the visit can be: the errors only grow at the
      end, a recorded brick keeps its kind, a declared state stays declared
      and a target stays recorded. */
  ghost predicate Extends(later: VState, earlier: VState)
  {
    && |earlier.errors| <= |later.errors| && later.errors[..|earlier.errors|] == earlier.errors
    && (forall k :: k in earlier.bricks ==> k in later.bricks && later.bricks[k] == earlier.bricks[k])
    && earlier.states <= later.states
    && |earlier.targets| <= |later.targets| && later.targets[..|earlier.targets|] == earlier.targets
  }

  lemma ExtendsTrans(a: VState, b: VState, c: VState)
    requires Extends(b, a) && Extends(c, b)
    ensures Extends(c, a)
  {
    assert c.errors[..|a.errors|] == c.errors[..|b.errors|][..|a.errors|];
    assert c.targets[..|a.targets|] == c.targets[..|b.targets|][..|a.targets|];
  }

  lemma ExtendsAppend(st: VState, errs: seq<string>, targets: seq<PyValue>)
    ensures Extends(st.(errors := st.errors + errs, targets := st.targets + targets), st)
  {
    assert (st.errors + errs)[..|st.errors|] == st.errors;
    assert (st.targets + targets)[..|st.targets|] == st.targets;
  }

  /** No visit loses anything already collected. */
  lemma {:induction false} VisitExtends(st: VState, n: ParseNode)
    ensures Extends(Visit(st, n), st)
    decreases n, 1
  {
    if n.kind == "application" {
      ApplicationExtends(st, n);
    } else if n.kind == "sensor" || n.kind == "actuator" {
      BrickExtends(st, n);
    } else if n.kind == "state" {
      StateExtends(st, n);
    } else if n.kind == "action" {
      ActionExtends(st, n);
    } else if n.kind == "simple_transition" {
      SimpleTransitionExtends(st, n);
    } else if n.kind in {"and_transition", "or_transition", "compound_transition"} {
      CompoundExtends(st, n);
    } else if n.kind == "condition" {
      ConditionExtends(st, n);
    } else {
      assert Visit(st, n) == VisitChildren(st, n.children);
      VisitChildrenExtends(st, n.children);
    }
  }

  lemma BrickExtends(st: VState, n: ParseNode)
    requires n.kind == "sensor" || n.kind == "actuator"
    ensures Extends(Visit(st, n), st)
  {
    assert n.kind != "application";
    var r := DeclareBrick(st, LastValue(n.children, "name"), n.kind);
    assert Visit(st, n) == r;
    assert r.errors[..|st.errors|] == st.errors;
  }

  lemma ActionExtends(st: VState, n: ParseNode)
    requires n.kind == "action"
    ensures Extends(Visit(st, n), st)
  {
    VisitActionIs(st, n);
    var errs := ActuatorErrors(st.bricks, LastValue(n.children, "actuator")) + SignalErrors(LastValue(n.children, "signal"));
    assert Visit(st, n) == st.(errors := st.errors + errs);
    ExtendsAppend(st, errs, []);
    assert st.targets + [] == st.targets;
  }

  lemma SimpleTransitionExtends(st: VState, n: ParseNode)
    requires n.kind == "simple_transition"
    ensures Extends(Visit(st, n), st)
  {
    VisitSimpleTransitionIs(st, n);
    var target := LastValue(n.children, "next_state");
    ExtendsAppend(st, SensorErrors(st.bricks, LastValue(n.children, "sensor"), "transition")
      + SignalErrors(LastValue(n.children, "signal")), AddTarget(st.targets, target)[|st.targets|..]);
  }

  lemma ConditionExtends(st: VState, n: ParseNode)
    requires n.kind == "condition"
    ensures Extends(Visit(st, n), st)
  {
    VisitConditionIs(st, n);
    var errs := SensorErrors(st.bricks, LastValue(n.children, "sensor"), "condition") + SignalErrors(LastValue(n.children, "signal"));
    assert Visit(st, n) == st.(errors := st.errors + errs);
    ExtendsAppend(st, errs, []);
    assert st.targets + [] == st.targets;
  }

  lemma {:induction false} ApplicationExtends(st: VState, n: ParseNode)
    requires n.kind == "application"
    ensures Extends(Visit(st, n), st)
    decreases n, 0
  {
    var st1 := CheckAppName(st, n.children);
    assert st1.errors[..|st.errors|] == st.errors;
    VisitChildrenExtends(st1, n.children);
    ExtendsTrans(st, st1, Visit(st, n));
  }

  lemma {:induction false} StateExtends(st: VState, n: ParseNode)
    requires n.kind == "state"
    ensures Extends(Visit(st, n), st)
    decreases n, 0
  {
    var st1 := DeclareState(st, n.children);
    assert st1.errors[..|st.errors|] == st.errors;
    VisitChildrenExtends(st1, n.children);
    ExtendsTrans(st, st1, Visit(st, n));
  }

  lemma {:induction false} CompoundExtends(st: VState, n: ParseNode)
    requires n.kind in {"and_transition", "or_transition", "compound_transition"}
    ensures Extends(Visit(st, n), st)
    decreases n, 0
  {
    assert n.kind != "application" && n.kind != "sensor" && n.kind != "actuator" && n.kind != "state"
      && n.kind != "action" && n.kind != "simple_transition";
    assert Visit(st, n) == VisitCompound(st, n);
    var after := VisitOthers(st, n.children);
    VisitOthersExtends(st, n.children);
    ExtendsAppend(after, [], AddTarget(after.targets, LastValue(n.children, "next_state"))[|after.targets|..]);
    assert after.errors + [] == after.errors;
    ExtendsTrans(st, after, Visit(st, n));
  }

  lemma {:induction false} VisitChildrenExtends(st: VState, ns: seq<ParseNode>)
    ensures Extends(VisitChildren(st, ns), st)
    decreases ns
  {
    if ns != [] {
      VisitExtends(st, ns[0]);
      VisitChildrenExtends(Visit(st, ns[0]), ns[1..]);
      ExtendsTrans(st, Visit(st, ns[0]), VisitChildren(st, ns));
    }
  }

  lemma {:induction false} VisitOthersExtends(st: VState, ns: seq<ParseNode>)
    ensures Extends(VisitOthers(st, ns), st)
    decreases ns
  {
    if ns != [] {
      var next := if ns[0].kind == "next_state" then st else Visit(st, ns[0]);
      if ns[0].kind != "next_state" {
        VisitExtends(st, ns[0]);
      }
      VisitOthersExtends(next, ns[1..]);
      ExtendsTrans(st, next, VisitOthers(st, ns));
    }
  }

  /** A brick declaration as the parser builds it. */
  function Declaration(kind: string, name: string, pin: nat): ParseNode
  {
    ParseNode(kind, NoValue, [Leaf("name", Str(name)), Leaf("pin", Int(pin))])
  }

  /** Declaring a name as a sensor and then as an actuator keeps it a
      sensor and reports the second declaration once. */
  lemma DuplicateBrickKeepsFirst(st: VState, name: string, pin1: nat, pin2: nat)
    requires name != "" && Str(name) !in st.bricks
    ensures var after := VisitChildren(st, [Declaration("sensor", name, pin1), Declaration("actuator", name, pin2)]);
      && after.bricks == st.bricks[Str(name) := "sensor"]
      && after.errors == st.errors + ["Duplicate brick name '" + name + "': already declared as " + "sensor"]
  {
    var first := Declaration("sensor", name, pin1);
    var second := Declaration("actuator", name, pin2);
    assert LastValue(first.children, "name") == Str(name) by {
      assert first.children[..1] == [Leaf("name", Str(name))];
    }
    assert LastValue(second.children, "name") == Str(name) by {
      assert second.children[..1] == [Leaf("name", Str(name))];
    }
    var st1 := Visit(st, first);
    assert st1 == st.(bricks := st.bricks[Str(name) := "sensor"]);
    var st2 := Visit(st1, second);
    assert st1.bricks[Str(name)] == "sensor";
    assert st2 == DeclareBrick(st1, Str(name), "actuator");
    assert Show(Str(name)) == name;
    assert st2 == st1.(errors := st1.errors + ["Duplicate brick name '" + name + "': already declared as " + "sensor"]);
    assert [first, second][1..] == [second];
    assert VisitChildren(st1, [second]) == st2 by {
      assert [second][1..] == [];
    }
  }

  /** A state node with one action-free transition to `target`. */
  function StateTo(name: string, target: string): ParseNode
  {
    ParseNode("state", NoValue, [Leaf("name", Str(name)),
      ParseNode("simple_transition", NoValue, [Leaf("next_state", Str(target))])])
  }

  /** Visiting a state with a fresh name and one plain transition records
      the name and the target and nothing else. */
  lemma VisitStateTo(st: VState, a: string, b: string)
    requires a != "" && b != "" && Str(a) !in st.states
    ensures Visit(st, StateTo(a, b)) == st.(states := st.states + {Str(a)}, targets := st.targets + [Str(b)])
  {
    var sa := StateTo(a, b);
    var ta := sa.children[1];
    assert LastValue(ta.children, "next_state") == Str(b) by {
      assert ta.children[..0] == [];
    }
    assert LastValue(ta.children, "sensor") == NoValue && LastValue(ta.children, "signal") == NoValue;
    var d := DeclareState(st, sa.children);
    assert FirstValue(sa.children, "name") == Some(Str(a));
    assert d == st.(states := st.states + {Str(a)});
    assert Visit(d, sa.children[0]) == d;
    assert sa.children[1..] == [ta];
    assert [ta][1..] == [];
    assert d.errors + [] + [] == d.errors;
    assert Visit(d, ta) == d.(targets := d.targets + [Str(b)]);
    assert Visit(st, sa) == VisitChildren(d, sa.children);
    assert VisitChildren(d, sa.children) == VisitChildren(d, [ta]);
    assert VisitChildren(d, [ta]) == VisitChildren(Visit(d, ta), []);
  }

  /** A transition may name a state declared after it: the targets are
      checked only once every state has been recorded, so two states that
      lead to each other give no error. */
  lemma ForwardReferenceAccepted(a: string, b: string)
    requires a != "" && b != "" && a != b
    ensures SemanticsSpec(ParseNode("states", NoValue, [StateTo(a, b), StateTo(b, a)])).0
  {
    var sa := StateTo(a, b);
    var sb := StateTo(b, a);
    VisitStateTo(Initial(), a, b);
    var st1 := Visit(Initial(), sa);
    assert st1 == VState([], map[], {Str(a)}, NoValue, [Str(b)]);
    VisitStateTo(st1, b, a);
    var st2 := Visit(st1, sb);
    assert st2 == VState([], map[], {Str(a), Str(b)}, NoValue, [Str(b), Str(a)]);
    var root := ParseNode("states", NoValue, [sa, sb]);
    assert root.children[1..] == [sb];
    assert [sb][1..] == [];
    assert Visit(Initial(), root) == VisitChildren(Initial(), [sa, sb]);
    assert VisitChildren(Initial(), [sa, sb]) == VisitChildren(st1, [sb]);
    assert VisitChildren(st1, [sb]) == VisitChildren(st2, []);
    assert TargetErrors(st2.targets, st2.states) == [];
  }

  /** The loop of `_visit_simple_transition` over the children: the last
      sensor, signal and next state named. */
  method TransitionValues(cs: seq<ParseNode>) returns (sensor: PyValue, signal: PyValue, target: PyValue)
    ensures sensor == LastValue(cs, "sensor") && signal == LastValue(cs, "signal")
    ensures target == LastValue(cs, "next_state")
  {
    sensor, signal, target := NoValue, NoValue, NoValue;
    for i := 0 to |cs|
      invariant sensor == LastValue(cs[..i], "sensor") && signal == LastValue(cs[..i], "signal")
      invariant target == LastValue(cs[..i], "next_state")
    {
      assert cs[..i + 1][..i] == cs[..i];
      if cs[i].kind == "sensor" {
        sensor := cs[i].value;
      } else if cs[i].kind == "signal" {
        signal := cs[i].value;
      } else if cs[i].kind == "next_state" {
        target := cs[i].value;
      }
    }
    assert cs[..|cs|] == cs;
  }

  /** The loops of `_visit_action` and `_visit_condition` over the
      children: the last values of two child types. */
  method LastValues(cs: seq<ParseNode>, first: string, second: string) returns (a: PyValue, b: PyValue)
    requires first != second
    ensures a == LastValue(cs, first) && b == LastValue(cs, second)
  {
    a, b := NoValue, NoValue;
    for i := 0 to |cs|
      invariant a == LastValue(cs[..i], first) && b == LastValue(cs[..i], second)
    {
      assert cs[..i + 1][..i] == cs[..i];
      if cs[i].kind == first {
        a := cs[i].value;
      } else if cs[i].kind == second {
        b := cs[i].value;
      }
    }
    assert cs[..|cs|] == cs;
  }

  lemma VisitActionIs(st: VState, n: ParseNode)
    requires n.kind == "action"
    ensures Visit(st, n) == st.(errors := st.errors + ActuatorErrors(st.bricks, LastValue(n.children, "actuator"))
      + SignalErrors(LastValue(n.children, "signal")))
  {
    assert n.kind != "application" && n.kind != "sensor" && n.kind != "actuator" && n.kind != "state";
  }

  lemma VisitConditionIs(st: VState, n: ParseNode)
    requires n.kind == "condition"
    ensures Visit(st, n) == st.(errors := st.errors + SensorErrors(st.bricks, LastValue(n.children, "sensor"), "condition")
      + SignalErrors(LastValue(n.children, "signal")))
  {
    assert n.kind != "application" && n.kind != "sensor" && n.kind != "actuator";
    assert n.kind != "state" && n.kind != "action" && n.kind != "simple_transition";
    assert n.kind !in {"and_transition", "or_transition", "compound_transition"};
  }

  lemma VisitSimpleTransitionIs(st: VState, n: ParseNode)
    requires n.kind == "simple_transition"
    ensures Visit(st, n) == st.(errors := st.errors + SensorErrors(st.bricks, LastValue(n.children, "sensor"), "transition")
          + SignalErrors(LastValue(n.children, "signal")),
        targets := AddTarget(st.targets, LastValue(n.children, "next_state")))
  {
    assert n.kind != "application" && n.kind != "sensor" && n.kind != "actuator";
    assert n.kind != "state" && n.kind != "action";
  }

  /** One child of a compound transition: `next_state` only updates the
      target, any other child is visited. */
  lemma CompoundStep(st: VState, cs: seq<ParseNode>, i: nat)
    requires i < |cs|
    ensures VisitOthers(st, cs[i..]) == VisitOthers(if cs[i].kind == "next_state" then st else Visit(st, cs[i]), cs[i + 1..])
    ensures LastValue(cs[..i + 1], "next_state")
      == if cs[i].kind == "next_state" then cs[i].value else LastValue(cs[..i], "next_state")
  {
    assert cs[i..][1..] == cs[i + 1..];
    assert cs[..i + 1][..i] == cs[..i];
  }

  lemma VisitCompoundTransitionIs(st: VState, n: ParseNode)
    requires n.kind in {"and_transition", "or_transition", "compound_transition"}
    ensures Visit(st, n) == VisitCompound(st, n)
  {
    assert n.kind != "application" && n.kind != "sensor" && n.kind != "actuator";
    assert n.kind != "state" && n.kind != "action" && n.kind != "simple_transition";
  }

  // ------------------------------------------------------------ the validator

  /** `SemanticValidator`: the collected state, updated in place by the
      visit methods. */
  class Validator {
    var errors: seq<string>
    var warnings: seq<string>
    var bricks: map<PyValue, string>
    var states: set<PyValue>
    var appName: PyValue
    var targetStates: seq<PyValue>

    function Collected(): VState
      reads this
    {
      VState(errors, bricks, states, appName, targetStates)
    }

    constructor ()
      ensures Collected() == Initial() && warnings == []
    {
      errors := [];
      warnings := [];
      bricks := map[];
      states := {};
      appName := NoValue;
      targetStates := [];
    }

    /** `validate(parse_tree)`: every collection is reset first, so the
        outcome depends on the tree alone. */
    method Validate(tree: ParseNode) returns (valid: bool, errs: seq<string>, warns: seq<string>)
      modifies this
      ensures (valid, errs, warns) == SemanticsSpec(tree)
    {
      errors := [];
      warnings := [];
      bricks := map[];
      states := {};
      appName := NoValue;
      targetStates := [];
      VisitNode(tree);
      ValidateTargetStates();
      return |errors| == 0, errors, warnings;
    }

    /** `_visit(node)`: dispatch on the node's type. */
    method VisitNode(node: ParseNode)
      modifies this
      ensures Collected() == Visit(old(Collected()), node) && warnings == old(warnings)
      decreases node, 2
    {
      if node.kind == "application" {
        VisitApplication(node);
      } else if node.kind == "sensor" || node.kind == "actuator" {
        VisitBrick(node);
      } else if node.kind == "state" {
        VisitState(node);
      } else if node.kind == "action" {
        VisitAction(node);
      } else if node.kind == "simple_transition" {
        VisitSimpleTransition(node);
      } else if node.kind in {"and_transition", "or_transition", "compound_transition"} {
        VisitCompoundTransition(node);
      } else if node.kind == "condition" {
        VisitCondition(node);
      } else {
        VisitChildrenOf(node);
      }
    }

    /** The loop `for child in node.children: self._visit(child)` of the
        container rules and of the default case. */
    method VisitChildrenOf(node: ParseNode)
      modifies this
      ensures Collected() == VisitChildren(old(Collected()), node.children) && warnings == old(warnings)
      decreases node, 0
    {
      var cs := node.children;
      for i := 0 to |cs|
        invariant VisitChildren(old(Collected()), cs) == VisitChildren(Collected(), cs[i..])
        invariant warnings == old(warnings)
      {
        assert cs[i..][1..] == cs[i + 1..];
        VisitNode(cs[i]);
      }
    }

    /** `_visit_application`. */
    method VisitApplication(node: ParseNode)
      requires node.kind == "application"
      modifies this
      ensures Collected() == Visit(old(Collected()), node) && warnings == old(warnings)
      decreases node, 1
    {
      var cs := node.children;
      for i := 0 to |cs|
        invariant FirstValue(cs, "app_name") == FirstValue(cs[i..], "app_name")
        invariant Collected() == old(Collected())
      {
        assert cs[i..][1..] == cs[i + 1..];
        if cs[i].kind == "app_name" {
          appName := cs[i].value;
          if !Truthy(appName) {
            errors := errors + [EMPTY_APP_NAME];
          }
          break;
        }
      }
      assert Collected() == CheckAppName(old(Collected()), cs) by {
        assert errors == old(errors) + (if FirstValue(cs, "app_name").Some? && !Truthy(FirstValue(cs, "app_name").value) then [EMPTY_APP_NAME] else []);
      }
      VisitChildrenOf(node);
    }

    /** `_visit_sensor` and `_visit_actuator`. */
    method VisitBrick(node: ParseNode)
      requires node.kind == "sensor" || node.kind == "actuator"
      modifies this
      ensures Collected() == Visit(old(Collected()), node) && warnings == old(warnings)
      decreases node, 1
    {
      var cs := node.children;
      var name := NoValue;
      for i := 0 to |cs|
        invariant name == LastValue(cs[..i], "name")
      {
        assert cs[..i + 1][..i] == cs[..i];
        if cs[i].kind == "name" {
          name := cs[i].value;
        }
      }
      assert cs[..|cs|] == cs;
      if Truthy(name) {
        if name in bricks {
          errors := errors + ["Duplicate brick name '" + Show(name) + "': already declared as " + bricks[name]];
        } else {
          bricks := bricks[name := node.kind];
        }
      }
    }

    /** `_visit_state`. */
    method VisitState(node: ParseNode)
      requires node.kind == "state"
      modifies this
      ensures Collected() == Visit(old(Collected()), node) && warnings == old(warnings)
      decreases node, 1
    {
      var cs := node.children;
      for i := 0 to |cs|
        invariant FirstValue(cs, "name") == FirstValue(cs[i..], "name")
        invariant Collected() == old(Collected())
      {
        assert cs[i..][1..] == cs[i + 1..];
        if cs[i].kind == "name" {
          var stateName := cs[i].value;
          if stateName in states {
            errors := errors + ["Duplicate state name '" + Show(stateName) + "'"];
          } else {
            states := states + {stateName};
          }
          break;
        }
      }
      assert Collected() == DeclareState(old(Collected()), cs);
      VisitChildrenOf(node);
    }

    /** `_visit_action`. */
    method VisitAction(node: ParseNode)
      requires node.kind == "action"
      modifies this
      ensures Collected() == Visit(old(Collected()), node) && warnings == old(warnings)
      decreases node, 1
    {
      var actuator, signal := LastValues(node.children, "actuator", "signal");
      ghost var before := Collected();
      if Truthy(actuator) {
        if actuator !in bricks {
          errors := errors + ["Undefined brick '" + Show(actuator) + "' in action"];
        } else if bricks[actuator] != "actuator" {
          errors := errors + ["Cannot set '" + Show(actuator) + "': it is a " + bricks[actuator] + ", not an actuator"];
        }
      }
      assert errors == before.errors + ActuatorErrors(before.bricks, actuator);
      CheckSignal(signal);
      VisitActionIs(before, node);
    }

    /** The signal check that ends `_visit_action`, `_visit_simple_transition`
        and `_visit_condition`. */
    method CheckSignal(signal: PyValue)
      modifies this
      ensures errors == old(errors) + SignalErrors(signal)
      ensures bricks == old(bricks) && states == old(states) && appName == old(appName)
      ensures targetStates == old(targetStates) && warnings == old(warnings)
    {
      if Truthy(signal) && signal != Str("HIGH") && signal != Str("LOW") {
        errors := errors + ["Invalid signal value '" + Show(signal) + "': must be HIGH or LOW"];
      }
    }

    /** The sensor check of `_visit_simple_transition` and
        `_visit_condition`. */
    method CheckSensor(sensor: PyValue, where: string)
      modifies this
      ensures errors == old(errors) + SensorErrors(bricks, sensor, where)
      ensures bricks == old(bricks) && states == old(states) && appName == old(appName)
      ensures targetStates == old(targetStates) && warnings == old(warnings)
    {
      if Truthy(sensor) {
        if sensor !in bricks {
          errors := errors + ["Undefined brick '" + Show(sensor) + "' in " + where];
        } else if bricks[sensor] != "sensor" {
          errors := errors + ["Cannot check '" + Show(sensor) + "' in " + where + ": it is an " + bricks[sensor] + ", not a sensor"];
        }
      }
    }

    /** `_visit_simple_transition`. */
    method VisitSimpleTransition(node: ParseNode)
      requires node.kind == "simple_transition"
      modifies this
      ensures Collected() == Visit(old(Collected()), node) && warnings == old(warnings)
      decreases node, 1
    {
      var sensor, signal, target := TransitionValues(node.children);
      ghost var before := Collected();
      CheckSensor(sensor, "transition");
      CheckSignal(signal);
      if Truthy(target) {
        targetStates := targetStates + [target];
      }
      assert targetStates == AddTarget(before.targets, target);
      VisitSimpleTransitionIs(before, node);
    }

    /** `_visit_compound_transition`, which `_visit_and_transition` and
        `_visit_or_transition` call. */
    method VisitCompoundTransition(node: ParseNode)
      requires node.kind in {"and_transition", "or_transition", "compound_transition"}
      modifies this
      ensures Collected() == Visit(old(Collected()), node) && warnings == old(warnings)
      decreases node, 1
    {
      var cs := node.children;
      var target := NoValue;
      for i := 0 to |cs|
        invariant VisitOthers(old(Collected()), cs) == VisitOthers(Collected(), cs[i..])
        invariant target == LastValue(cs[..i], "next_state") && warnings == old(warnings)
      {
        CompoundStep(Collected(), cs, i);
        if cs[i].kind == "next_state" {
          target := cs[i].value;
        } else {
          VisitNode(cs[i]);
        }
      }
      assert cs[..|cs|] == cs;
      assert cs[|cs|..] == [];
      ghost var after := Collected();
      assert after == VisitOthers(old(Collected()), cs);
      if Truthy(target) {
        targetStates := targetStates + [target];
      }
      assert targetStates == AddTarget(after.targets, target);
      VisitCompoundTransitionIs(old(Collected()), node);
    }

    /** `_visit_condition`. */
    method VisitCondition(node: ParseNode)
      requires node.kind == "condition"
      modifies this
      ensures Collected() == Visit(old(Collected()), node) && warnings == old(warnings)
      decreases node, 1
    {
      var sensor, signal := LastValues(node.children, "sensor", "signal");
      ghost var before := Collected();
      CheckSensor(sensor, "condition");
      assert errors == before.errors + SensorErrors(before.bricks, sensor, "condition");
      CheckSignal(signal);
      assert Collected() == before.(errors := before.errors + SensorErrors(before.bricks, sensor, "condition") + SignalErrors(signal));
      VisitConditionIs(before, node);
    }

    /** `validate_target_states`. */
    method ValidateTargetStates()
      modifies this
      ensures errors == old(errors) + TargetErrors(targetStates, states)
      ensures bricks == old(bricks) && states == old(states) && targetStates == old(targetStates)
      ensures warnings == old(warnings)
    {
      var targets := targetStates;
      for i := 0 to |targets|
        invariant errors + TargetErrors(targets[i..], states) == old(errors) + TargetErrors(targets, states)
        invariant bricks == old(bricks) && states == old(states) && targetStates == targets
        invariant warnings == old(warnings) && appName == old(appName)
      {
        assert targets[i..][1..] == targets[i + 1..];
        ghost var rest := TargetErrors(targets[i + 1..], states);
        if targets[i] !in states {
          var m := "Undefined state '" + Show(targets[i]) + "' referenced in transition";
          assert TargetErrors(targets[i..], states) == [m] + rest;
          assert (errors + [m]) + rest == errors + ([m] + rest);
          errors := errors + [m];
        } else {
          assert TargetErrors(targets[i..], states) == [] + rest;
          assert [] + rest == rest;
        }
      }
      assert targets[|targets|..] == [];
    }
  }
}
