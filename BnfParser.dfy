/** The recursive-descent parser of the DSL: a cursor over the token list,
    one method per grammar rule, each consuming tokens with `consume` and
    raising a `SyntaxError` at the first token that does not fit. Each
    method is proved against a function on `(tokens, position)` that gives
    the node built and the position reached, or the error raised. */
module BnfParser {
  import opened Common
  import opened BnfLexer

  /** A node's `value`: `None`, a string or an int. */
  datatype PyValue = NoValue | Str(s: string) | Int(i: int)

  datatype ParseNode = ParseNode(kind: string, value: PyValue, children: seq<ParseNode>)

  /** `SyntaxError(msg)`, or the `AttributeError` raised by reading
      `.value` of a missing token. */
  datatype ParseError = SyntaxError(msg: string) | NoneAttribute | InvalidLiteral(text: string)

  /** `int(text)` on an unsigned decimal literal; any other text raises
      `ValueError`. */
  function PyInt(text: string): (r: Result<int, ParseError>)
    ensures r.Ok? <==> |text| >= 1 && forall i :: 0 <= i < |text| ==> IsDigit(text[i])
    ensures r.Ok? ==> r.value >= 0
  {
    if |text| >= 1 && forall i :: 0 <= i < |text| ==> IsDigit(text[i]) then Ok(DigitsValue(text))
    else Err(InvalidLiteral(text))
  }

  function Leaf(kind: string, v: PyValue): ParseNode
  {
    ParseNode(kind, v, [])
  }

  /** `value.strip('"')`: the text of a `STRING` token without its quotes. */
  function Unquoted(s: string): string
  {
    StripChar(s, '"')
  }

  /** A method's outcome agrees with its specification: the same value and
      the cursor where the specification ends, or the same error. */
  predicate Agrees<X(==)>(r: Result<X, ParseError>, spec: Result<(X, nat), ParseError>, pos: nat)
  {
    match r
    case Ok(x) => spec == Ok((x, pos))
    case Err(e) => spec == Err(e)
  }

  // ------------------------------------------------------------ specification

  /** `consume(expected_type, expected_value)` at `pos`. */
  function ConsumeSpec(toks: seq<Token>, pos: nat, t: TokenType, v: Option<string>): (r: Result<(Token, nat), ParseError>)
    ensures r.Ok? <==> (pos < |toks| && toks[pos].tokenType == t && (v.None? || toks[pos].value == v.value))
    ensures r.Ok? ==> r.value == (toks[pos], pos + 1)
    ensures r.Err? ==> r.error.SyntaxError?
  {
    if pos >= |toks| then Err(SyntaxError(EndOfInput(t)))
    else if toks[pos].tokenType != t then Err(SyntaxError(WrongType(t, toks[pos])))
    else if v.Some? && toks[pos].value != v.value then Err(SyntaxError(WrongValue(v.value, toks[pos])))
    else Ok((toks[pos], pos + 1))
  }

  function EndOfInput(t: TokenType): string
  {
    "Unexpected end of input, expected " + TypeName(t)
  }

  function WrongType(t: TokenType, tok: Token): string
  {
    "Expected token type " + TypeName(t) + ", got " + TypeName(tok.tokenType) + " at position " + IntToString(tok.position)
  }

  function WrongValue(v: string, tok: Token): string
  {
    "Expected '" + v + "', got '" + tok.value + "' at position " + IntToString(tok.position)
  }

  /** `keyword ( ARG )`, the shape of every call in the chain: the argument
      token and the position after the closing parenthesis. */
  function ArgumentSpec(toks: seq<Token>, pos: nat, keyword: string, arg: TokenType): (r: Result<(Token, nat), ParseError>)
    ensures r.Ok? ==> (r.value.1 == pos + 4 <= |toks| && toks[pos].tokenType == KEYWORD && toks[pos].value == keyword
      && toks[pos + 1].tokenType == LPAREN && toks[pos + 2] == r.value.0 && r.value.0.tokenType == arg
      && toks[pos + 3].tokenType == RPAREN)
    ensures r.Err? ==> r.error.SyntaxError?
  {
    var kw :- ConsumeSpec(toks, pos, KEYWORD, Some(keyword));
    var lp :- ConsumeSpec(toks, kw.1, LPAREN, None);
    var a :- ConsumeSpec(toks, lp.1, arg, None);
    var rp :- ConsumeSpec(toks, a.1, RPAREN, None);
    Ok((a.0, rp.1))
  }

  /** Every `NUMBER` token is a decimal literal, as the lexer makes them. */
  predicate NumbersAreLiterals(toks: seq<Token>)
  {
    forall i :: 0 <= i < |toks| && toks[i].tokenType == NUMBER ==> PyInt(toks[i].value).Ok?
  }

  predicate DeviceShape(n: ParseNode)
  {
    && (n.kind == "sensor" || n.kind == "actuator")
    && |n.children| == 2 && n.children[0].kind == "name" && n.children[0].value.Str?
    && n.children[1].kind == "pin" && n.children[1].value.Int? && n.children[1].value.i >= 0
  }

  /** `parse_sensor_decl` / `parse_actuator_decl`, after the dot. */
  function DeviceDeclSpec(toks: seq<Token>, pos: nat, kind: string): (r: Result<(ParseNode, nat), ParseError>)
    requires kind == "sensor" || kind == "actuator"
    ensures r.Ok? ==> pos < r.value.1 <= |toks| && DeviceShape(r.value.0) && r.value.0.kind == kind
    ensures NumbersAreLiterals(toks) && r.Err? ==> !r.error.InvalidLiteral?
  {
    var name :- ArgumentSpec(toks, pos, kind, STRING);
    var dot :- ConsumeSpec(toks, name.1, DOT, None);
    var kw :- ConsumeSpec(toks, dot.1, KEYWORD, Some("on_pin"));
    var lp :- ConsumeSpec(toks, kw.1, LPAREN, None);
    var pin :- ConsumeSpec(toks, lp.1, NUMBER, None);
    var number :- PyInt(pin.0.value);
    var rp :- ConsumeSpec(toks, pin.1, RPAREN, None);
    Ok((ParseNode(kind, NoValue, [Leaf("name", Str(Unquoted(name.0.value))), Leaf("pin", Int(number))]), rp.1))
  }

  /** `int(pin.value)` runs before the closing parenthesis is consumed: a
      `NUMBER` that is not a decimal literal raises `ValueError` whatever
      follows it, a missing `)` included. */
  lemma BadPinRaisesFirst(toks: seq<Token>, pos: nat, kind: string)
    requires kind == "sensor" || kind == "actuator"
    requires pos + 8 <= |toks|
    requires toks[pos].tokenType == KEYWORD && toks[pos].value == kind
    requires toks[pos + 1].tokenType == LPAREN && toks[pos + 2].tokenType == STRING
    requires toks[pos + 3].tokenType == RPAREN && toks[pos + 4].tokenType == DOT
    requires toks[pos + 5].tokenType == KEYWORD && toks[pos + 5].value == "on_pin"
    requires toks[pos + 6].tokenType == LPAREN && toks[pos + 7].tokenType == NUMBER
    requires PyInt(toks[pos + 7].value).Err?
    ensures DeviceDeclSpec(toks, pos, kind) == Err(InvalidLiteral(toks[pos + 7].value))
    ensures DeviceDeclSpec(toks[..pos + 8], pos, kind) == Err(InvalidLiteral(toks[pos + 7].value))
  {
  }

  /** `parse_brick_decl`. */
  function BrickDeclSpec(toks: seq<Token>, pos: nat): (r: Result<(ParseNode, nat), ParseError>)
    ensures r.Ok? ==> pos < r.value.1 <= |toks| && DeviceShape(r.value.0)
    ensures NumbersAreLiterals(toks) && r.Err? ==> !r.error.InvalidLiteral?
    ensures r == Err(NoneAttribute) <==> pos + 1 == |toks| && toks[pos].tokenType == DOT
  {
    var dot :- ConsumeSpec(toks, pos, DOT, None);
    if dot.1 >= |toks| then Err(NoneAttribute)
    else if toks[dot.1].value == "sensor" then DeviceDeclSpec(toks, dot.1, "sensor")
    else if toks[dot.1].value == "actuator" then DeviceDeclSpec(toks, dot.1, "actuator")
    else Err(SyntaxError("Expected 'sensor' or 'actuator', got '" + toks[dot.1].value + "'"))
  }

  /** The loop guard of the brick, state and action loops: a dot followed
      by a token whose value is one of `words`. */
  predicate DotThen(toks: seq<Token>, pos: nat, words: set<string>)
  {
    pos < |toks| && toks[pos].tokenType == DOT && pos + 1 < |toks| && toks[pos + 1].value in words
  }

  /** Nodes collected in front of a list result, or its error unchanged. */
  function PrependNodes(ns: seq<ParseNode>, r: Result<(seq<ParseNode>, nat), ParseError>): Result<(seq<ParseNode>, nat), ParseError>
  {
    if r.Ok? then Ok((ns + r.value.0, r.value.1)) else r
  }

  /** The brick loop of `parse_application`. */
  function BricksSpec(toks: seq<Token>, pos: nat): (r: Result<(seq<ParseNode>, nat), ParseError>)
    requires pos <= |toks|
    ensures r.Ok? ==> pos <= r.value.1 <= |toks| && !DotThen(toks, r.value.1, {"sensor", "actuator"})
    ensures r.Ok? ==> forall b :: b in r.value.0 ==> DeviceShape(b)
    decreases |toks| - pos
    ensures NumbersAreLiterals(toks) && r.Err? ==> !r.error.InvalidLiteral?
  {
    if DotThen(toks, pos, {"sensor", "actuator"}) then
      var b :- BrickDeclSpec(toks, pos);
      PrependNodes([b.0], BricksSpec(toks, b.1))
    else Ok(([], pos))
  }

  predicate ActionShape(n: ParseNode)
  {
    && n.kind == "action" && |n.children| == 2
    && n.children[0].kind == "actuator" && n.children[1].kind == "signal"
  }

  /** `parse_action`. */
  function ActionSpec(toks: seq<Token>, pos: nat): (r: Result<(ParseNode, nat), ParseError>)
    ensures r.Ok? ==> pos < r.value.1 <= |toks| && ActionShape(r.value.0)
    ensures r.Err? ==> r.error.SyntaxError?
  {
    var dot :- ConsumeSpec(toks, pos, DOT, None);
    var actuator :- ArgumentSpec(toks, dot.1, "set", STRING);
    var dot2 :- ConsumeSpec(toks, actuator.1, DOT, None);
    var signal :- ArgumentSpec(toks, dot2.1, "to", SIGNAL);
    Ok((ParseNode("action", NoValue, [Leaf("actuator", Str(Unquoted(actuator.0.value))), Leaf("signal", Str(signal.0.value))]), signal.1))
  }

  /** The action loop of `parse_state_decl`. */
  function ActionsSpec(toks: seq<Token>, pos: nat): (r: Result<(seq<ParseNode>, nat), ParseError>)
    requires pos <= |toks|
    ensures r.Ok? ==> pos <= r.value.1 <= |toks| && forall a :: a in r.value.0 ==> ActionShape(a)
    decreases |toks| - pos
    ensures r.Err? ==> r.error.SyntaxError?
  {
    if DotThen(toks, pos, {"set"}) then
      var a :- ActionSpec(toks, pos);
      PrependNodes([a.0], ActionsSpec(toks, a.1))
    else Ok(([], pos))
  }

  predicate ConditionShape(n: ParseNode)
  {
    n.kind == "condition" && |n.children| == 2 && n.children[0].kind == "sensor" && n.children[1].kind == "signal"
  }

  /** `parse_condition_tuple`: `( STRING , SIGNAL )`. */
  function ConditionTupleSpec(toks: seq<Token>, pos: nat): (r: Result<(ParseNode, nat), ParseError>)
    ensures r.Ok? ==> pos < r.value.1 <= |toks| && ConditionShape(r.value.0)
    ensures r.Err? ==> r.error.SyntaxError?
  {
    var lp :- ConsumeSpec(toks, pos, LPAREN, None);
    var sensor :- ConsumeSpec(toks, lp.1, STRING, None);
    var comma :- ConsumeSpec(toks, sensor.1, COMMA, None);
    var signal :- ConsumeSpec(toks, comma.1, SIGNAL, None);
    var rp :- ConsumeSpec(toks, signal.1, RPAREN, None);
    Ok((ParseNode("condition", NoValue, [Leaf("sensor", Str(Unquoted(sensor.0.value))), Leaf("signal", Str(signal.0.value))]), rp.1))
  }

  /** The comma loop of `parse_condition_list`. */
  function MoreConditionsSpec(toks: seq<Token>, pos: nat): (r: Result<(seq<ParseNode>, nat), ParseError>)
    requires pos <= |toks|
    ensures r.Ok? ==> pos <= r.value.1 <= |toks| && forall c :: c in r.value.0 ==> ConditionShape(c)
    ensures r.Ok? ==> !(r.value.1 < |toks| && toks[r.value.1].tokenType == COMMA)
    decreases |toks| - pos
    ensures r.Err? ==> r.error.SyntaxError?
  {
    if pos < |toks| && toks[pos].tokenType == COMMA then
      var comma :- ConsumeSpec(toks, pos, COMMA, None);
      var c :- ConditionTupleSpec(toks, comma.1);
      PrependNodes([c.0], MoreConditionsSpec(toks, c.1))
    else Ok(([], pos))
  }

  /** `parse_condition_list`: one or more comma-separated tuples. */
  function ConditionListSpec(toks: seq<Token>, pos: nat): (r: Result<(seq<ParseNode>, nat), ParseError>)
    ensures r.Ok? ==> pos < r.value.1 <= |toks| && |r.value.0| >= 1 && forall c :: c in r.value.0 ==> ConditionShape(c)
    ensures r.Err? ==> r.error.SyntaxError?
  {
    var first :- ConditionTupleSpec(toks, pos);
    PrependNodes([first.0], MoreConditionsSpec(toks, first.1))
  }

  predicate TransitionShape(n: ParseNode)
  {
    || (n.kind == "simple_transition" && |n.children| == 3 && n.children[0].kind == "sensor"
        && n.children[1].kind == "signal" && n.children[2].kind == "next_state")
    || ((n.kind == "and_transition" || n.kind == "or_transition") && |n.children| == 2
        && n.children[0].kind == "conditions" && |n.children[0].children| >= 1
        && (forall c :: c in n.children[0].children ==> ConditionShape(c))
        && n.children[1].kind == "next_state")
  }

  /** `parse_simple_transition`, after the dot. */
  function SimpleTransitionSpec(toks: seq<Token>, pos: nat): (r: Result<(ParseNode, nat), ParseError>)
    ensures r.Ok? ==> pos < r.value.1 <= |toks| && TransitionShape(r.value.0) && r.value.0.kind == "simple_transition"
    ensures r.Err? ==> r.error.SyntaxError?
  {
    var sensor :- ArgumentSpec(toks, pos, "when", STRING);
    var dot :- ConsumeSpec(toks, sensor.1, DOT, None);
    var signal :- ArgumentSpec(toks, dot.1, "has_value", SIGNAL);
    var dot2 :- ConsumeSpec(toks, signal.1, DOT, None);
    var next :- ArgumentSpec(toks, dot2.1, "go_to_state", STRING);
    Ok((SimpleTransitionNode(sensor.0, signal.0, next.0), next.1))
  }

  /** The node of a simple transition: the sensor and target unquoted. */
  function SimpleTransitionNode(sensor: Token, signal: Token, next: Token): (n: ParseNode)
    ensures n.kind == "simple_transition" && |n.children| == 3 && TransitionShape(n)
  {
    ParseNode("simple_transition", NoValue,
      [Leaf("sensor", Str(Unquoted(sensor.value))), Leaf("signal", Str(signal.value)),
       Leaf("next_state", Str(Unquoted(next.value)))])
  }

  /** `parse_and_transition` (`all`) and `parse_or_transition`, after the
      dot. */
  function CompoundTransitionSpec(toks: seq<Token>, pos: nat, all: bool): (r: Result<(ParseNode, nat), ParseError>)
    ensures r.Ok? ==> (pos < r.value.1 <= |toks| && TransitionShape(r.value.0)
      && r.value.0.kind == (if all then "and_transition" else "or_transition"))
    ensures r.Err? ==> r.error.SyntaxError?
  {
    var kw :- ConsumeSpec(toks, pos, KEYWORD, Some(if all then "when_all" else "when_any"));
    var lp :- ConsumeSpec(toks, kw.1, LPAREN, None);
    var conditions :- ConditionListSpec(toks, lp.1);
    var rp :- ConsumeSpec(toks, conditions.1, RPAREN, None);
    var dot :- ConsumeSpec(toks, rp.1, DOT, None);
    var next :- ArgumentSpec(toks, dot.1, "go_to_state", STRING);
    Ok((ParseNode(if all then "and_transition" else "or_transition", NoValue,
      [ParseNode("conditions", NoValue, conditions.0), Leaf("next_state", Str(Unquoted(next.0.value)))]), next.1))
  }

  const TRANSITION_KEYWORD_ERROR := "Expected transition keyword (when/when_all/when_any), got '"

  /** `parse_transition`: the keyword after the dot chooses the form. */
  function TransitionSpec(toks: seq<Token>, pos: nat): (r: Result<(ParseNode, nat), ParseError>)
    ensures r.Ok? ==> pos < r.value.1 <= |toks| && TransitionShape(r.value.0)
    ensures r.Err? ==> !r.error.InvalidLiteral?
    ensures r == Err(NoneAttribute) <==> pos + 1 == |toks| && toks[pos].tokenType == DOT
  {
    var dot :- ConsumeSpec(toks, pos, DOT, None);
    if dot.1 >= |toks| then Err(NoneAttribute)
    else if toks[dot.1].value == "when" then SimpleTransitionSpec(toks, dot.1)
    else if toks[dot.1].value == "when_all" then CompoundTransitionSpec(toks, dot.1, true)
    else if toks[dot.1].value == "when_any" then CompoundTransitionSpec(toks, dot.1, false)
    else Err(SyntaxError(TRANSITION_KEYWORD_ERROR + toks[dot.1].value + "'"))
  }

  predicate StateShape(n: ParseNode)
  {
    && n.kind == "state" && |n.children| == 3 && n.children[0].kind == "name"
    && n.children[1].kind == "actions" && |n.children[1].children| >= 1
    && (forall a :: a in n.children[1].children ==> ActionShape(a))
    && TransitionShape(n.children[2])
  }

  const NO_ACTION_ERROR := "State must have at least one action"

  /** `parse_state_decl`. */
  function StateDeclSpec(toks: seq<Token>, pos: nat): (r: Result<(ParseNode, nat), ParseError>)
    ensures r.Ok? ==> pos < r.value.1 <= |toks| && StateShape(r.value.0)
    ensures r.Err? ==> !r.error.InvalidLiteral?
  {
    var dot :- ConsumeSpec(toks, pos, DOT, None);
    var name :- ArgumentSpec(toks, dot.1, "state", STRING);
    var actions :- ActionsSpec(toks, name.1);
    if actions.0 == [] then Err(SyntaxError(NO_ACTION_ERROR))
    else
      var transition :- TransitionSpec(toks, actions.1);
      Ok((StateNode(name.0, actions.0, transition.0), transition.1))
  }

  /** The node of a state: its unquoted name, its actions, its transition. */
  function StateNode(name: Token, actions: seq<ParseNode>, transition: ParseNode): (n: ParseNode)
    requires |actions| >= 1 && (forall a :: a in actions ==> ActionShape(a)) && TransitionShape(transition)
    ensures StateShape(n)
  {
    ParseNode("state", NoValue, [Leaf("name", Str(Unquoted(name.value))), ParseNode("actions", NoValue, actions), transition])
  }

  /** The state loop of `parse_application`. */
  function StatesSpec(toks: seq<Token>, pos: nat): (r: Result<(seq<ParseNode>, nat), ParseError>)
    requires pos <= |toks|
    ensures r.Ok? ==> pos <= r.value.1 <= |toks| && forall s :: s in r.value.0 ==> StateShape(s)
    ensures r.Ok? && r.value.0 == [] ==> r.value.1 == pos && !DotThen(toks, pos, {"state"})
    decreases |toks| - pos
    ensures r.Err? ==> !r.error.InvalidLiteral?
  {
    if DotThen(toks, pos, {"state"}) then
      var s :- StateDeclSpec(toks, pos);
      PrependNodes([s.0], StatesSpec(toks, s.1))
    else Ok(([], pos))
  }

  predicate ApplicationShape(n: ParseNode)
  {
    && n.kind == "application" && 2 <= |n.children| <= 3
    && n.children[0].kind == "app_name" && n.children[0].value.Str?
    && (|n.children| == 3 ==> (n.children[1].kind == "bricks" && |n.children[1].children| >= 1
          && forall b :: b in n.children[1].children ==> DeviceShape(b)))
    && var states := n.children[|n.children| - 1];
    && states.kind == "states" && |states.children| >= 1
    && (forall s :: s in states.children ==> StateShape(s))
  }

  const NO_STATE_ERROR := "At least one state declaration is required"

  /** `parse_application`: the application node and the position after
      `.get_contents()`. */
  function ApplicationSpec(toks: seq<Token>, pos: nat): (r: Result<(ParseNode, nat), ParseError>)
    ensures r.Ok? ==> pos + 8 <= r.value.1 <= |toks| && ApplicationShape(r.value.0) && EndsWithGetContents(toks, r.value.1)
    ensures NumbersAreLiterals(toks) && r.Err? ==> !r.error.InvalidLiteral?
  {
    var name :- ArgumentSpec(toks, pos, "AppBuilder", STRING);
    var bricks :- BricksSpec(toks, name.1);
    var states :- StatesThenEndSpec(toks, bricks.1);
    Ok((ApplicationNode(Unquoted(name.0.value), bricks.0, states.0), states.1))
  }

  /** The rest of `parse_application` after the bricks: at least one
      state, then `.get_contents()`. */
  function StatesThenEndSpec(toks: seq<Token>, pos: nat): (r: Result<(seq<ParseNode>, nat), ParseError>)
    requires pos <= |toks|
    ensures r.Ok? ==> (pos + 4 <= r.value.1 <= |toks| && |r.value.0| >= 1 && (forall s :: s in r.value.0 ==> StateShape(s))
      && EndsWithGetContents(toks, r.value.1))
    ensures r.Err? ==> !r.error.InvalidLiteral?
  {
    var states :- StatesSpec(toks, pos);
    if states.0 == [] then Err(SyntaxError(NO_STATE_ERROR))
    else
      var end :- GetContentsSpec(toks, states.1);
      Ok((states.0, end))
  }

  /** The node `parse_application` builds: the bricks node only when there
      are bricks. */
  function ApplicationNode(name: string, bricks: seq<ParseNode>, states: seq<ParseNode>): (n: ParseNode)
    requires |states| >= 1 && (forall b :: b in bricks ==> DeviceShape(b)) && (forall s :: s in states ==> StateShape(s))
    ensures ApplicationShape(n) && n.children[0] == Leaf("app_name", Str(name))
    ensures n.children[|n.children| - 1].children == states
    ensures |n.children| == 3 <==> bricks != []
    ensures |n.children| == 3 ==> n.children[1].children == bricks
  {
    ParseNode("application", NoValue,
      [Leaf("app_name", Str(name))]
      + (if bricks == [] then [] else [ParseNode("bricks", NoValue, bricks)])
      + [ParseNode("states", NoValue, states)])
  }

  /** The four tokens before `end` are `.get_contents()`. */
  predicate EndsWithGetContents(toks: seq<Token>, end: nat)
  {
    && 4 <= end <= |toks|
    && toks[end - 4].tokenType == DOT && toks[end - 3].tokenType == KEYWORD
    && toks[end - 3].value == "get_contents"
    && toks[end - 2].tokenType == LPAREN && toks[end - 1].tokenType == RPAREN
  }

  /** The closing `.get_contents()`: the position after it. */
  function GetContentsSpec(toks: seq<Token>, pos: nat): (r: Result<nat, ParseError>)
    ensures r.Ok? ==> r.value == pos + 4 <= |toks| && EndsWithGetContents(toks, r.value)
    ensures r.Err? ==> r.error.SyntaxError?
  {
    var dot :- ConsumeSpec(toks, pos, DOT, None);
    var kw :- ConsumeSpec(toks, dot.1, KEYWORD, Some("get_contents"));
    var lp :- ConsumeSpec(toks, kw.1, LPAREN, None);
    var rp :- ConsumeSpec(toks, lp.1, RPAREN, None);
    Ok(rp.1)
  }

  lemma PrependNoNodes(r: Result<(seq<ParseNode>, nat), ParseError>)
    ensures PrependNodes([], r) == r
  {
    if r.Ok? {
      assert [] + r.value.0 == r.value.0;
    }
  }

  lemma PrependNodesTwice(a: seq<ParseNode>, b: seq<ParseNode>, r: Result<(seq<ParseNode>, nat), ParseError>)
    ensures PrependNodes(a, PrependNodes(b, r)) == PrependNodes(a + b, r)
  {
    if r.Ok? {
      assert a + (b + r.value.0) == (a + b) + r.value.0;
    }
  }

  // ------------------------------------------------------------ the parser

  /** `BNFParser(tokens)`: the token list and the cursor into it. */
  class Parser {
    const tokens: seq<Token>
    var position: nat

    constructor (tokens: seq<Token>)
      ensures this.tokens == tokens && position == 0
    {
      this.tokens := tokens;
      position := 0;
    }

    /** `current_token()`. */
    function CurrentToken(): (r: Option<Token>)
      reads this
      ensures r.Some? <==> position < |tokens|
      ensures r.Some? ==> r.value == tokens[position]
    {
      if position < |tokens| then Some(tokens[position]) else None
    }

    /** `peek(offset)`. */
    function Peek(offset: nat): (r: Option<Token>)
      reads this
      ensures r.Some? <==> position + offset < |tokens|
      ensures r.Some? ==> r.value == tokens[position + offset]
    {
      if position + offset < |tokens| then Some(tokens[position + offset]) else None
    }

    /** `consume(expected_type, expected_value)`: one token further on
        success, and not moved on an error. */
    method Consume(t: TokenType, v: Option<string>) returns (r: Result<Token, ParseError>)
      modifies this
      ensures Agrees(r, ConsumeSpec(tokens, old(position), t, v), position)
      ensures position == if r.Ok? then old(position) + 1 else old(position)
    {
      var token := CurrentToken();
      if token.None? {
        return Err(SyntaxError(EndOfInput(t)));
      }
      if token.value.tokenType != t {
        return Err(SyntaxError(WrongType(t, token.value)));
      }
      if v.Some? && token.value.value != v.value {
        return Err(SyntaxError(WrongValue(v.value, token.value)));
      }
      position := position + 1;
      return Ok(token.value);
    }

    /** `keyword ( ARG )`, consumed one token at a time. */
    method Argument(keyword: string, arg: TokenType) returns (r: Result<Token, ParseError>)
      modifies this
      ensures Agrees(r, ArgumentSpec(tokens, old(position), keyword, arg), position)
    {
      var kw :- Consume(KEYWORD, Some(keyword));
      var lp :- Consume(LPAREN, None);
      var a :- Consume(arg, None);
      var rp :- Consume(RPAREN, None);
      return Ok(a);
    }

    /** `parse_application`. */
    method ParseApplication() returns (r: Result<ParseNode, ParseError>)
      modifies this
      ensures Agrees(r, ApplicationSpec(tokens, old(position)), position)
    {
      var name :- Argument("AppBuilder", STRING);

      var bricks :- ParseBricks();
      ghost var afterBricks := position;
      var states :- ParseStates();
      if states == [] {
        return Err(SyntaxError(NO_STATE_ERROR));
      }
      ghost var beforeEnd := position;
      var dot :- Consume(DOT, None);
      var kw :- Consume(KEYWORD, Some("get_contents"));
      var lp :- Consume(LPAREN, None);
      var rp :- Consume(RPAREN, None);
      assert GetContentsSpec(tokens, beforeEnd) == Ok(position);
      assert StatesThenEndSpec(tokens, afterBricks) == Ok((states, position));
      return Ok(ApplicationNode(Unquoted(name.value), bricks, states));
    }

    /** The brick loop of `parse_application`: declarations while a dot is
        followed by `sensor` or `actuator`. */
    method ParseBricks() returns (r: Result<seq<ParseNode>, ParseError>)
      requires position <= |tokens|
      modifies this
      ensures Agrees(r, BricksSpec(tokens, old(position)), position)
    {
      var bricks: seq<ParseNode> := [];
      ghost var start := position;
      PrependNoNodes(BricksSpec(tokens, position));
      while CurrentToken().Some? && CurrentToken().value.tokenType == DOT
        invariant start <= position <= |tokens|
        invariant BricksSpec(tokens, start) == PrependNodes(bricks, BricksSpec(tokens, position))
        decreases |tokens| - position
      {
        var next := Peek(1);
        if next.Some? && next.value.value in {"sensor", "actuator"} {
          var b := ParseBrickDecl();
          if b.Err? {
            return Err(b.error);
          }
          PrependNodesTwice(bricks, [b.value], BricksSpec(tokens, position));
          bricks := bricks + [b.value];
        } else {
          break;
        }
      }
      assert bricks + [] == bricks;
      return Ok(bricks);
    }

    /** The state loop of `parse_application`: declarations while a dot is
        followed by `state`. */
    method ParseStates() returns (r: Result<seq<ParseNode>, ParseError>)
      requires position <= |tokens|
      modifies this
      ensures Agrees(r, StatesSpec(tokens, old(position)), position)
    {
      var states: seq<ParseNode> := [];
      ghost var start := position;
      PrependNoNodes(StatesSpec(tokens, position));
      while CurrentToken().Some? && CurrentToken().value.tokenType == DOT
        invariant start <= position <= |tokens|
        invariant StatesSpec(tokens, start) == PrependNodes(states, StatesSpec(tokens, position))
        decreases |tokens| - position
      {
        var next := Peek(1);
        if next.Some? && next.value.value == "state" {
          var st := ParseStateDecl();
          if st.Err? {
            return Err(st.error);
          }
          PrependNodesTwice(states, [st.value], StatesSpec(tokens, position));
          states := states + [st.value];
        } else {
          break;
        }
      }
      assert states + [] == states;
      return Ok(states);
    }

    /** `parse_brick_decl`. */
    method ParseBrickDecl() returns (r: Result<ParseNode, ParseError>)
      modifies this
      ensures Agrees(r, BrickDeclSpec(tokens, old(position)), position)
    {
      var dot :- Consume(DOT, None);
      var keyword := CurrentToken();
      if keyword.None? {
        return Err(NoneAttribute);
      }
      if keyword.value.value == "sensor" {
        r := ParseDeviceDecl("sensor");
      } else if keyword.value.value == "actuator" {
        r := ParseDeviceDecl("actuator");
      } else {
        r := Err(SyntaxError("Expected 'sensor' or 'actuator', got '" + keyword.value.value + "'"));
      }
    }

    /** `parse_sensor_decl` and `parse_actuator_decl`, which differ only in
        the keyword and the node's type. */
    method ParseDeviceDecl(kind: string) returns (r: Result<ParseNode, ParseError>)
      requires kind == "sensor" || kind == "actuator"
      modifies this
      ensures Agrees(r, DeviceDeclSpec(tokens, old(position), kind), position)
    {
      var name :- Argument(kind, STRING);
      var dot :- Consume(DOT, None);
      var kw :- Consume(KEYWORD, Some("on_pin"));
      var lp :- Consume(LPAREN, None);
      var pin :- Consume(NUMBER, None);
      var number :- PyInt(pin.value);
      var rp :- Consume(RPAREN, None);
      return Ok(ParseNode(kind, NoValue, [Leaf("name", Str(Unquoted(name.value))), Leaf("pin", Int(number))]));
    }

    /** `parse_state_decl`. */
    method ParseStateDecl() returns (r: Result<ParseNode, ParseError>)
      modifies this
      ensures Agrees(r, StateDeclSpec(tokens, old(position)), position)
    {
      var dot :- Consume(DOT, None);
      var name :- Argument("state", STRING);

      var actions: seq<ParseNode> := [];
      ghost var afterName := position;
      PrependNoNodes(ActionsSpec(tokens, position));
      while CurrentToken().Some? && CurrentToken().value.tokenType == DOT
        invariant afterName <= position <= |tokens|
        invariant ActionsSpec(tokens, afterName) == PrependNodes(actions, ActionsSpec(tokens, position))
        decreases |tokens| - position
      {
        var next := Peek(1);
        if next.Some? && next.value.value == "set" {
          var a := ParseAction();
          if a.Err? {
            return Err(a.error);
          }
          PrependNodesTwice(actions, [a.value], ActionsSpec(tokens, position));
          actions := actions + [a.value];
        } else {
          break;
        }
      }
      assert actions + [] == actions;

      if actions == [] {
        return Err(SyntaxError(NO_ACTION_ERROR));
      }
      var transition :- ParseTransition();
      return Ok(ParseNode("state", NoValue,
        [Leaf("name", Str(Unquoted(name.value))), ParseNode("actions", NoValue, actions), transition]));
    }

    /** `parse_action`. */
    method ParseAction() returns (r: Result<ParseNode, ParseError>)
      modifies this
      ensures Agrees(r, ActionSpec(tokens, old(position)), position)
    {
      var dot :- Consume(DOT, None);
      var actuator :- Argument("set", STRING);
      var dot2 :- Consume(DOT, None);
      var signal :- Argument("to", SIGNAL);
      return Ok(ParseNode("action", NoValue, [Leaf("actuator", Str(Unquoted(actuator.value))), Leaf("signal", Str(signal.value))]));
    }

    /** `parse_transition`. */
    method ParseTransition() returns (r: Result<ParseNode, ParseError>)
      modifies this
      ensures Agrees(r, TransitionSpec(tokens, old(position)), position)
    {
      var dot :- Consume(DOT, None);
      var keyword := CurrentToken();
      if keyword.None? {
        return Err(NoneAttribute);
      }
      if keyword.value.value == "when" {
        r := ParseSimpleTransition();
      } else if keyword.value.value == "when_all" {
        r := ParseCompoundTransition(true);
      } else if keyword.value.value == "when_any" {
        r := ParseCompoundTransition(false);
      } else {
        r := Err(SyntaxError(TRANSITION_KEYWORD_ERROR + keyword.value.value + "'"));
      }
    }

    /** `parse_simple_transition`. */
    method ParseSimpleTransition() returns (r: Result<ParseNode, ParseError>)
      modifies this
      ensures Agrees(r, SimpleTransitionSpec(tokens, old(position)), position)
    {
      var sensor :- Argument("when", STRING);
      var dot :- Consume(DOT, None);
      var signal :- Argument("has_value", SIGNAL);
      var dot2 :- Consume(DOT, None);
      var next :- Argument("go_to_state", STRING);
      return Ok(ParseNode("simple_transition", NoValue,
        [Leaf("sensor", Str(Unquoted(sensor.value))), Leaf("signal", Str(signal.value)),
         Leaf("next_state", Str(Unquoted(next.value)))]));
    }

    /** `parse_and_transition` (`all`) and `parse_or_transition`. */
    method ParseCompoundTransition(all: bool) returns (r: Result<ParseNode, ParseError>)
      modifies this
      ensures Agrees(r, CompoundTransitionSpec(tokens, old(position), all), position)
    {
      var kw :- Consume(KEYWORD, Some(if all then "when_all" else "when_any"));
      var lp :- Consume(LPAREN, None);
      var conditions :- ParseConditionList();
      var rp :- Consume(RPAREN, None);
      var dot :- Consume(DOT, None);
      var next :- Argument("go_to_state", STRING);
      return Ok(ParseNode(if all then "and_transition" else "or_transition", NoValue,
        [ParseNode("conditions", NoValue, conditions), Leaf("next_state", Str(Unquoted(next.value)))]));
    }

    /** `parse_condition_list`. */
    method ParseConditionList() returns (r: Result<seq<ParseNode>, ParseError>)
      modifies this
      ensures Agrees(r, ConditionListSpec(tokens, old(position)), position)
    {
      ghost var start := position;
      var first :- ParseConditionTuple();
      var conditions := [first];
      while CurrentToken().Some? && CurrentToken().value.tokenType == COMMA
        invariant position <= |tokens|
        invariant ConditionListSpec(tokens, start) == PrependNodes(conditions, MoreConditionsSpec(tokens, position))
        decreases |tokens| - position
      {
        var comma := Consume(COMMA, None);
        var c := ParseConditionTuple();
        if c.Err? {
          return Err(c.error);
        }
        PrependNodesTwice(conditions, [c.value], MoreConditionsSpec(tokens, position));
        conditions := conditions + [c.value];
      }
      assert conditions + [] == conditions;
      return Ok(conditions);
    }

    /** `parse_condition_tuple`. */
    method ParseConditionTuple() returns (r: Result<ParseNode, ParseError>)
      modifies this
      ensures Agrees(r, ConditionTupleSpec(tokens, old(position)), position)
    {
      var lp :- Consume(LPAREN, None);
      var sensor :- Consume(STRING, None);
      var comma :- Consume(COMMA, None);
      var signal :- Consume(SIGNAL, None);
      var rp :- Consume(RPAREN, None);
      return Ok(ParseNode("condition", NoValue, [Leaf("sensor", Str(Unquoted(sensor.value))), Leaf("signal", Str(signal.value))]));
    }
  }

  // ------------------------------------------------------------ to_dict

  /** The dictionary `to_dict()` returns: the `type` key, and the `value`
      and `children` keys only when present. */
  datatype Dict = Dict(kind: string, value: Option<PyValue>, children: ChildrenKey)

  /** The `children` key: absent, or the list of child dictionaries. */
  datatype ChildrenKey = NoChildren | Children(list: seq<Dict>)

  /** Python truthiness of a node's value: `None`, `""` and `0` are false. */
  predicate Truthy(v: PyValue)
  {
    match v
    case NoValue => false
    case Str(s) => s != ""
    case Int(i) => i != 0
  }

  /** `ParseNode.to_dict()`. */
  function ToDict(n: ParseNode): (d: Dict)
    decreases n
  {
    Dict(n.kind, if Truthy(n.value) then Some(n.value) else None,
      if n.children == [] then NoChildren else Children(ToDictAll(n.children)))
  }

  function ToDictAll(ns: seq<ParseNode>): (ds: seq<Dict>)
    decreases ns
    ensures |ds| == |ns|
  {
    if ns == [] then [] else [ToDict(ns[0])] + ToDictAll(ns[1..])
  }

  /** Reading a dictionary back into a node: a missing key is `None` or no
      children. */
  function FromDict(d: Dict): ParseNode
    decreases d
  {
    ParseNode(d.kind, if d.value.Some? then d.value.value else NoValue,
      if d.children.Children? then FromDictAll(d.children.list) else [])
  }

  function FromDictAll(ds: seq<Dict>): seq<ParseNode>
    decreases ds
  {
    if ds == [] then [] else [FromDict(ds[0])] + FromDictAll(ds[1..])
  }

  /** The node with every falsy value replaced by `None`. */
  function Normalized(n: ParseNode): ParseNode
    decreases n
  {
    ParseNode(n.kind, if Truthy(n.value) then n.value else NoValue, NormalizedAll(n.children))
  }

  function NormalizedAll(ns: seq<ParseNode>): (r: seq<ParseNode>)
    decreases ns
    ensures |r| == |ns|
  {
    if ns == [] then [] else [Normalized(ns[0])] + NormalizedAll(ns[1..])
  }

  /** Reading back what `to_dict()` wrote gives the node except for its
      falsy values: an empty name or a pin `0` comes back as `None`. */
  lemma {:induction false} ToDictRoundTrip(n: ParseNode)
    ensures FromDict(ToDict(n)) == Normalized(n)
    decreases n
  {
    ToDictAllRoundTrip(n.children);
  }

  lemma {:induction false} ToDictAllRoundTrip(ns: seq<ParseNode>)
    ensures FromDictAll(ToDictAll(ns)) == NormalizedAll(ns)
    decreases ns
  {
    if ns != [] {
      ToDictRoundTrip(ns[0]);
      ToDictAllRoundTrip(ns[1..]);
    }
  }

  /** No value in the tree is falsy unless it is `None`. */
  predicate KeepsValues(n: ParseNode)
    decreases n
  {
    (n.value.NoValue? || Truthy(n.value)) && forall i :: 0 <= i < |n.children| ==> KeepsValues(n.children[i])
  }

  /** A tree with no empty string and no zero in it survives the round trip
      unchanged. */
  lemma {:induction false} NormalizedKeeps(n: ParseNode)
    requires KeepsValues(n)
    ensures Normalized(n) == n
    decreases n
  {
    NormalizedAllKeeps(n.children);
  }

  lemma {:induction false} NormalizedAllKeeps(ns: seq<ParseNode>)
    requires forall i :: 0 <= i < |ns| ==> KeepsValues(ns[i])
    ensures NormalizedAll(ns) == ns
    decreases ns
  {
    if ns != [] {
      NormalizedKeeps(ns[0]);
      NormalizedAllKeeps(ns[1..]);
    }
  }

  // ------------------------------------------------------------ validate

  const NONE_ATTRIBUTE := "'NoneType' object has no attribute 'value'"

  /** `str(e)` of a parser exception. */
  function ErrorText(e: ParseError): string
  {
    match e
    case SyntaxError(msg) => msg
    case NoneAttribute => NONE_ATTRIBUTE
    case InvalidLiteral(text) => "invalid literal for int() with base 10: '" + text + "'"
  }

  /** `ArduinoMLBNFParser.validate(code)`: lexing and parsing, with a
      `SyntaxError` reported as a syntax error and any other exception as a
      parse error. */
  function ValidateSpec(code: string): (r: (bool, string, Option<ParseNode>))
    ensures r.0 <==> r.2.Some?
    ensures r.0 <==> Lex(code, 0).Ok? && ApplicationSpec(Lex(code, 0).value, 0).Ok?
    ensures r.0 ==> r.1 == "Parsing successful!" && ApplicationShape(r.2.value)
    ensures !r.0 ==> (StartsWith(r.1, "Syntax error: ") || StartsWith(r.1, "Parse error: "))
  {
    match Lex(code, 0)
    case Err(msg) => (false, "Syntax error: " + msg, None)
    case Ok(toks) =>
      match ApplicationSpec(toks, 0)
      case Ok(parsed) => (true, "Parsing successful!", Some(parsed.0))
      case Err(e) => (false, (if e.SyntaxError? then "Syntax error: " else "Parse error: ") + ErrorText(e), None)
  }

  predicate StartsWith(s: string, prefix: string)
  {
    |prefix| <= |s| && s[..|prefix|] == prefix
  }

  /** `validate(code)`, run: the lexer, then the parser on its tokens. */
  method Validate(code: string) returns (ok: bool, message: string, tree: Option<ParseNode>)
    ensures (ok, message, tree) == ValidateSpec(code)
  {
    var lexer := new Lexer(code);
    var lexError := lexer.Tokenize();
    if lexError.Some? {
      return false, "Syntax error: " + lexError.value, None;
    }
    var parser := new Parser(lexer.tokens);
    var parsed := parser.ParseApplication();
    if parsed.Err? {
      var e := parsed.error;
      return false, (if e.SyntaxError? then "Syntax error: " else "Parse error: ") + ErrorText(e), None;
    }
    return true, "Parsing successful!", Some(parsed.value);
  }

  /** A digit run makes a decimal literal. */
  lemma LexedNumbers(toks: seq<Token>)
    requires forall t :: t in toks ==> TokenText(t)
    ensures NumbersAreLiterals(toks)
  {
    forall i | 0 <= i < |toks| && toks[i].tokenType == NUMBER
      ensures PyInt(toks[i].value).Ok?
    {
      assert TokenText(toks[i]);
    }
  }

  /** On any text, `validate` fails only with the lexer's or the parser's
      `SyntaxError`, or with the `AttributeError` of a chain that ends right
      after a dot where a transition is due: the `int()` of a pin never
      fails on what the lexer makes. */
  lemma ValidateErrors(code: string)
    ensures !ValidateSpec(code).0 ==>
      StartsWith(ValidateSpec(code).1, "Syntax error: ") || ValidateSpec(code).1 == "Parse error: " + NONE_ATTRIBUTE
  {
    LexTexts(code, 0);
    match Lex(code, 0)
    case Err(msg) =>
      PrefixStartsWith("Syntax error: ", msg);
    case Ok(toks) =>
      LexedNumbers(toks);
      var r := ApplicationSpec(toks, 0);
      if r.Err? {
        assert !r.error.InvalidLiteral?;
        if r.error.SyntaxError? {
          PrefixStartsWith("Syntax error: ", r.error.msg);
        }
      }
  }

  lemma PrefixStartsWith(prefix: string, rest: string)
    ensures StartsWith(prefix + rest, prefix)
  {
    assert (prefix + rest)[..|prefix|] == prefix;
  }

  /** The quotes of a `STRING` token are dropped from the name stored. */
  lemma UnquotedText(x: string)
    requires '"' !in x
    ensures Unquoted("\"" + x + "\"") == x
  {
    var q := "\"" + x + "\"";
    assert q[..|q| - 1] == "\"" + x;
    if x == [] {
      assert RStripChar(q, '"') == [];
    } else {
      assert x[|x| - 1] in x && x[0] in x;
      assert RStripChar(q, '"') == "\"" + x;
      assert ("\"" + x)[1..] == x;
      assert LStripChar(x, '"') == x;
    }
  }
}
