/** The method-chaining builders of pyArduinoML: `ConditionBuilder`, whose
    last composite call wins, and `StateBuilder`, which records actions and
    a single transition and then builds its state in two steps, raising
    `UndefinedBrick` or `UndefinedState` for names it cannot resolve. */
module PyBuilders {
  import opened Common
  import opened PyModel

  /** What the builders raise: the two exceptions of the methodchaining
      package, and Python's own `KeyError` and `AttributeError`. */
  datatype BuildError = UndefinedBrick | UndefinedState | KeyError | AttributeError

  // ------------------------------------------------------------ ConditionBuilder

  /** `ConditionBuilder`; its `root` is only handed back to callers and is
      not modelled. `sensorName` and `value` stand for attributes that exist
      only once `sensor` has been called. */
  class ConditionBuilder {
    var condition: Option<Condition>
    var sensorName: Option<string>
    var value: Option<Signal>

    constructor ()
      ensures condition.None? && sensorName.None? && value.None?
    {
      condition := None;
      sensorName := None;
      value := None;
    }

    /** `sensor(sensor_name, value)`. */
    method Sensor(name: string, v: Signal) returns (self_: ConditionBuilder)
      modifies this
      ensures self_ == this
      ensures sensorName == Some(name) && value == Some(v) && condition == old(condition)
    {
      sensorName := Some(name);
      value := Some(v);
      return this;
    }

    /** `and_condition(*conditions)`: replaces any earlier composite. */
    method AndConditionOf(conditions: seq<Condition>) returns (self_: ConditionBuilder)
      modifies this
      ensures self_ == this
      ensures condition == Some(AndCondition(conditions))
      ensures sensorName == old(sensorName) && value == old(value)
    {
      condition := Some(AndCondition(conditions));
      return this;
    }

    /** `or_condition(*conditions)`: replaces any earlier composite. */
    method OrConditionOf(conditions: seq<Condition>) returns (self_: ConditionBuilder)
      modifies this
      ensures self_ == this
      ensures condition == Some(OrCondition(conditions))
      ensures sensorName == old(sensorName) && value == old(value)
    {
      condition := Some(OrCondition(conditions));
      return this;
    }

    /** `not_condition(condition)`: replaces any earlier composite. */
    method NotConditionOf(c: Condition) returns (self_: ConditionBuilder)
      modifies this
      ensures self_ == this
      ensures condition == Some(NotCondition(c))
      ensures sensorName == old(sensorName) && value == old(value)
    {
      condition := Some(NotCondition(c));
      return this;
    }

    /** `build(bricks)`: the composite when one is set, even if a sensor was
      given too; else the sensor test on `bricks[sensor_name]`, which raises
      `KeyError` for an unknown name; else `None`. */
    function Build(bricks: map<string, PyBrick>): (r: Result<Option<Condition>, BuildError>)
      reads this
      ensures condition.Some? ==> r == Ok(condition)
      ensures condition.None? && sensorName.Some? && value.Some? ==>
        if sensorName.value in bricks then r == Ok(Some(SensorCondition(bricks[sensorName.value], value.value)))
        else r == Err(KeyError)
      ensures condition.None? && (sensorName.None? || value.None?) ==> r == Ok(None)
    {
      if condition.Some? then Ok(condition)
      else if sensorName.Some? && value.Some? then
        if sensorName.value in bricks then Ok(Some(SensorCondition(bricks[sensorName.value], value.value)))
        else Err(KeyError)
      else Ok(None)
    }
  }

  /** A chain `sensor(...)`, then two composites: `build` returns the last
      composite and ignores the sensor and the first composite. */
  method LastCompositeWins(name: string, v: Signal, first: seq<Condition>, last: Condition,
                           bricks: map<string, PyBrick>)
    returns (r: Result<Option<Condition>, BuildError>)
    ensures r == Ok(Some(NotCondition(last)))
  {
    var b := new ConditionBuilder();
    var b1 := b.Sensor(name, v);
    var b2 := b1.AndConditionOf(first);
    var b3 := b2.NotConditionOf(last);
    r := b3.Build(bricks);
  }

  // ------------------------------------------------------------ StateBuilder

  /** `StateActionBuilder` is not part of this model beyond the actuator it
      is created for and the value it is later set to. */
  class ActionBuilder {
    var actuator: string
    var value: Option<Signal>

    constructor (actuator: string)
      ensures this.actuator == actuator && value.None?
    {
      this.actuator := actuator;
      value := None;
    }
  }

  /** `TransitionBuilder` is not part of this model beyond the attributes
      `get_contents2` reads: the sensor and value of a simple transition,
      the target state, the composite `(sensor, value)` pairs with their
      AND/OR kind, and the custom condition function. */
  class TransitionBuilder {
    var sensor: Option<string>
    var value: Option<Signal>
    var nextState: Option<string>
    var compositeConditions: seq<(string, Signal)>
    var compositeIsAnd: bool
    var conditionBuilder: Option<map<string, PyBrick> -> Condition>

    constructor (sensor: Option<string>)
      ensures this.sensor == sensor && value.None? && nextState.None?
      ensures compositeConditions == [] && conditionBuilder.None?
    {
      this.sensor := sensor;
      value := None;
      nextState := None;
      compositeConditions := [];
      compositeIsAnd := true;
      conditionBuilder := None;
    }
  }

  /** The action as a built state records it. */
  function ActionOf(a: ActionBuilder): PyAction
    reads a
  {
    PyAction(a.actuator, a.value)
  }

  function ActionsOf(actions: seq<ActionBuilder>): (r: seq<PyAction>)
    reads set a | a in actions
    ensures |r| == |actions|
    ensures forall i :: 0 <= i < |actions| ==> r[i] == ActionOf(actions[i])
  {
    if actions == [] then [] else ActionsOf(actions[..|actions| - 1]) + [ActionOf(actions[|actions| - 1])]
  }

  /** `[SensorCondition(bricks[n], v) for n, v in pairs]`. */
  function SensorConditions(pairs: seq<(string, Signal)>, bricks: map<string, PyBrick>): (r: seq<Condition>)
    requires forall i :: 0 <= i < |pairs| ==> pairs[i].0 in bricks
    ensures |r| == |pairs|
    ensures forall i :: 0 <= i < |pairs| ==> r[i] == SensorCondition(bricks[pairs[i].0], pairs[i].1)
  {
    if pairs == [] then []
    else SensorConditions(pairs[..|pairs| - 1], bricks) + [SensorCondition(bricks[pairs[|pairs| - 1].0], pairs[|pairs| - 1].1)]
  }

  predicate AllSensorsDeclared(pairs: seq<(string, Signal)>, bricks: map<string, PyBrick>)
  {
    forall i :: 0 <= i < |pairs| ==> pairs[i].0 in bricks
  }

  class StateBuilder {
    var state: string
    var actions: seq<ActionBuilder>
    var transition: Option<TransitionBuilder>

    /** `StateBuilder(root, state)`; the root is not modelled. */
    constructor (state: string)
      ensures this.state == state && actions == [] && transition.None?
    {
      this.state := state;
      actions := [];
      transition := None;
    }

    /** `set(actuator)`: one more action builder, after the earlier ones. */
    method Set(actuator: string) returns (action: ActionBuilder)
      modifies this
      ensures fresh(action) && action.actuator == actuator && action.value.None?
      ensures actions == old(actions) + [action]
      ensures state == old(state) && transition == old(transition)
    {
      action := new ActionBuilder(actuator);
      actions := actions + [action];
    }

    /** `when(sensor)`: replaces the transition with a simple one. */
    method When(sensor: string) returns (t: TransitionBuilder)
      modifies this
      ensures fresh(t) && transition == Some(t)
      ensures t.sensor == Some(sensor) && t.compositeConditions == [] && t.conditionBuilder.None?
      ensures t.nextState.None? && t.value.None?
      ensures state == old(state) && actions == old(actions)
    {
      t := new TransitionBuilder(Some(sensor));
      transition := Some(t);
    }

    /** `when_all(*pairs)` (`isAnd`) and `when_any(*pairs)`: replaces the
      transition with a composite one. */
    method WhenComposite(pairs: seq<(string, Signal)>, isAnd: bool) returns (t: TransitionBuilder)
      modifies this
      ensures fresh(t) && transition == Some(t)
      ensures t.sensor.None? && t.compositeConditions == pairs && t.compositeIsAnd == isAnd
      ensures t.conditionBuilder.None? && t.nextState.None?
      ensures state == old(state) && actions == old(actions)
    {
      t := new TransitionBuilder(None);
      t.compositeConditions := pairs;
      t.compositeIsAnd := isAnd;
      transition := Some(t);
    }

    /** `when_condition(fn)`: replaces the transition with one whose
      condition `fn(bricks)` computes. */
    method WhenCondition(fn: map<string, PyBrick> -> Condition) returns (t: TransitionBuilder)
      modifies this
      ensures fresh(t) && transition == Some(t)
      ensures t.sensor.None? && t.compositeConditions == [] && t.conditionBuilder == Some(fn)
      ensures t.nextState.None?
      ensures state == old(state) && actions == old(actions)
    {
      t := new TransitionBuilder(None);
      t.conditionBuilder := Some(fn);
      transition := Some(t);
    }

    /** `get_contents(bricks)`: a new state with one action per `set` call,
      in order, and no transition. */
    method GetContents() returns (s: PyState)
      ensures fresh(s)
      ensures s.name == state && s.transition.None?
      ensures |s.actions| == |actions|
      ensures forall i :: 0 <= i < |actions| ==> s.actions[i] == PyAction(actions[i].actuator, actions[i].value)
    {
      s := new PyState(state, ActionsOf(actions));
    }

    /** A simple transition that `get_contents2` gets as far as building
      (its sensor and both states resolve) has a value; every path that
      raises before the value is read is open. */
    predicate CanBuild(bricks: map<string, PyBrick>, states: map<string, PyState>)
      reads this, if transition.Some? then {transition.value} else {}
    {
      transition.Some? ==>
        var t := transition.value;
        (t.conditionBuilder.None? && t.compositeConditions == []
         && t.sensor.Some? && t.sensor.value in bricks
         && state in states && t.nextState.Some? && t.nextState.value in states)
        ==> t.value.Some?
    }

    /** What `get_contents2` raises or builds: the custom branch first, then
      the composite branch (every sensor checked before either state), then
      the simple branch; in each, a missing current or next state raises
      `UndefinedState`. */
    function Outcome(bricks: map<string, PyBrick>, states: map<string, PyState>): (r: Result<Transition, BuildError>)
      reads this, if transition.Some? then {transition.value} else {}
      requires CanBuild(bricks, states)
    {
      if transition.None? then Err(AttributeError)
      else
        var t := transition.value;
        var statesKnown := state in states && t.nextState.Some? && t.nextState.value in states;
        if t.conditionBuilder.Some? then
          if !statesKnown then Err(UndefinedState)
          else Ok(NewTransition(None, None, states[t.nextState.value], Some(t.conditionBuilder.value(bricks))))
        else if t.compositeConditions != [] then
          if !AllSensorsDeclared(t.compositeConditions, bricks) then Err(UndefinedBrick)
          else if !statesKnown then Err(UndefinedState)
          else
            var leaves := SensorConditions(t.compositeConditions, bricks);
            var c := if t.compositeIsAnd then AndCondition(leaves) else OrCondition(leaves);
            Ok(NewTransition(None, None, states[t.nextState.value], Some(c)))
        else if t.sensor.None? || t.sensor.value !in bricks then Err(UndefinedBrick)
        else if !statesKnown then Err(UndefinedState)
        else Ok(NewTransition(Some(bricks[t.sensor.value]), t.value, states[t.nextState.value], None))
    }

    /** `get_contents2(bricks, states)`: on success the transition of
      `states[state]` is set and nothing else changes; on an error nothing
      changes at all. */
    method GetContents2(bricks: map<string, PyBrick>, states: map<string, PyState>) returns (err: Option<BuildError>)
      requires CanBuild(bricks, states)
      modifies if state in states then {states[state]} else {}
      ensures var o := Outcome(bricks, states);
        && (o.Err? ==> err == Some(o.error))
        && (o.Ok? ==> err.None? && states[state].transition == Some(o.value))
      ensures state in states ==> states[state].name == old(states[state].name)
      ensures state in states ==> states[state].actions == old(states[state].actions)
      ensures err.Some? && state in states ==> states[state].transition == old(states[state].transition)
    {
      if transition.None? {
        return Some(AttributeError);
      }
      var t := transition.value;
      if t.conditionBuilder.Some? {
        if state !in states {
          return Some(UndefinedState);
        }
        if t.nextState.None? || t.nextState.value !in states {
          return Some(UndefinedState);
        }
        var composite := t.conditionBuilder.value(bricks);
        var tr := NewTransition(None, None, states[t.nextState.value], Some(composite));
        states[state].transition := Some(tr);
      } else if t.compositeConditions != [] {
        var i := 0;
        while i < |t.compositeConditions|
          invariant 0 <= i <= |t.compositeConditions|
          invariant forall j :: 0 <= j < i ==> t.compositeConditions[j].0 in bricks
        {
          if t.compositeConditions[i].0 !in bricks {
            return Some(UndefinedBrick);
          }
          i := i + 1;
        }
        if state !in states {
          return Some(UndefinedState);
        }
        if t.nextState.None? || t.nextState.value !in states {
          return Some(UndefinedState);
        }
        var conditions := SensorConditions(t.compositeConditions, bricks);
        var composite := if t.compositeIsAnd then AndCondition(conditions) else OrCondition(conditions);
        var tr := NewTransition(None, None, states[t.nextState.value], Some(composite));
        states[state].transition := Some(tr);
      } else {
        if t.sensor.None? || t.sensor.value !in bricks {
          return Some(UndefinedBrick);
        }
        if state !in states {
          return Some(UndefinedState);
        }
        if t.nextState.None? || t.nextState.value !in states {
          return Some(UndefinedState);
        }
        var tr := NewTransition(Some(bricks[t.sensor.value]), t.value, states[t.nextState.value], None);
        states[state].transition := Some(tr);
      }
      return None;
    }
  }

  // ------------------------------------------------------------ properties

  /** In the composite branch an undeclared sensor raises `UndefinedBrick`
      whether or not the states exist. */
  lemma MissingSensorBeforeStates(sb: StateBuilder, bricks: map<string, PyBrick>, states: map<string, PyState>, k: int)
    requires sb.transition.Some? && sb.transition.value.conditionBuilder.None?
    requires 0 <= k < |sb.transition.value.compositeConditions|
    requires sb.transition.value.compositeConditions[k].0 !in bricks
    ensures sb.CanBuild(bricks, states) && sb.Outcome(bricks, states) == Err(UndefinedBrick)
  {
  }

  /** Whatever the branch, once the bricks it needs are declared, a missing
      current or next state raises `UndefinedState`. */
  lemma MissingStateRaises(sb: StateBuilder, bricks: map<string, PyBrick>, states: map<string, PyState>)
    requires sb.transition.Some?
    requires var t := sb.transition.value;
      && (t.conditionBuilder.None? && t.compositeConditions != [] ==> AllSensorsDeclared(t.compositeConditions, bricks))
      && (t.conditionBuilder.None? && t.compositeConditions == [] ==> t.sensor.Some? && t.sensor.value in bricks)
    requires sb.state !in states || sb.transition.value.nextState.None? || sb.transition.value.nextState.value !in states
    ensures sb.CanBuild(bricks, states) && sb.Outcome(bricks, states) == Err(UndefinedState)
  {
  }

  /** In the simple branch a missing or undeclared sensor raises
      `UndefinedBrick` before the states or the value are looked at; this
      is also what `when_all()` and `when_any()` with no pairs give. */
  lemma MissingSimpleSensorRaises(sb: StateBuilder, bricks: map<string, PyBrick>, states: map<string, PyState>)
    requires sb.transition.Some?
    requires var t := sb.transition.value;
      t.conditionBuilder.None? && t.compositeConditions == [] && (t.sensor.None? || t.sensor.value !in bricks)
    ensures sb.CanBuild(bricks, states) && sb.Outcome(bricks, states) == Err(UndefinedBrick)
  {
  }

  /** `when_all` builds an AND and `when_any` an OR of the sensor tests, in
      argument order, aimed at `states[next]`; its text is that of the
      composite over the sensors' tests. */
  lemma CompositeTransitionBuilt(sb: StateBuilder, bricks: map<string, PyBrick>, states: map<string, PyState>)
    requires sb.CanBuild(bricks, states) && sb.transition.Some?
    requires var t := sb.transition.value;
      t.conditionBuilder.None? && t.compositeConditions != [] && sb.Outcome(bricks, states).Ok?
    ensures var t := sb.transition.value;
      var tr := sb.Outcome(bricks, states).value;
      && AllSensorsDeclared(t.compositeConditions, bricks)
      && t.nextState.Some? && tr.nextstate == states[t.nextState.value]
      && tr.sensor.None? && tr.condition.Some?
      && (t.compositeIsAnd ==> tr.condition.value.AndCondition?)
      && (!t.compositeIsAnd ==> tr.condition.value.OrCondition?)
      && var leaves := tr.condition.value.conditions;
      && |leaves| == |t.compositeConditions|
      && (forall i :: 0 <= i < |leaves| ==>
            leaves[i] == SensorCondition(bricks[t.compositeConditions[i].0], t.compositeConditions[i].1))
      && EvaluateCondition(tr) == Some(Composite(EvaluateAll(leaves),
                                                 if t.compositeIsAnd then " && " else " || ",
                                                 if t.compositeIsAnd then "true" else "false"))
  {
  }

  /** A simple transition evaluates to the sensor's own test. */
  lemma SimpleTransitionBuilt(sb: StateBuilder, bricks: map<string, PyBrick>, states: map<string, PyState>)
    requires sb.CanBuild(bricks, states) && sb.transition.Some?
    requires var t := sb.transition.value;
      t.conditionBuilder.None? && t.compositeConditions == [] && sb.Outcome(bricks, states).Ok?
    ensures var t := sb.transition.value;
      && t.sensor.Some? && t.sensor.value in bricks && t.value.Some?
      && EvaluateCondition(sb.Outcome(bricks, states).value)
           == Some("digitalRead(" + bricks[t.sensor.value].name + ") == " + SignalValue(t.value.value))
  {
  }
}
