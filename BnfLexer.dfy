/** The tokenizer of the hand-written DSL parser: at each position the
    patterns are tried in their fixed order and the first that matches makes
    a token (whitespace makes none); a position no pattern matches raises a
    syntax error. Character classes follow Python's `re` on ASCII text:
    `\w` is a letter, a digit or `_`, `\d` an ASCII digit, and `\s` a
    character for which `str.isspace()` holds. */
module BnfLexer {
  import opened Common

  datatype TokenType = KEYWORD | SIGNAL | STRING | NUMBER | DOT | LPAREN | RPAREN | COMMA | WHITESPACE

  /** The type's name as the parser's error messages spell it. */
  function TypeName(t: TokenType): string
  {
    match t
    case KEYWORD => "KEYWORD"
    case SIGNAL => "SIGNAL"
    case STRING => "STRING"
    case NUMBER => "NUMBER"
    case DOT => "DOT"
    case LPAREN => "LPAREN"
    case RPAREN => "RPAREN"
    case COMMA => "COMMA"
    case WHITESPACE => "WHITESPACE"
  }

  datatype Token = Token(tokenType: TokenType, value: string, position: nat)

  /** `TOKEN_PATTERNS`, in the order they are tried. */
  const PATTERNS: seq<TokenType> := [KEYWORD, SIGNAL, STRING, NUMBER, DOT, LPAREN, RPAREN, COMMA, WHITESPACE]

  const KEYWORDS: seq<string> := ["AppBuilder", "get_contents", "sensor", "actuator", "on_pin", "state", "set",
                                  "to", "when", "has_value", "go_to_state", "when_all", "when_any",
                                  "when_condition"]
  const SIGNALS: seq<string> := ["HIGH", "LOW"]

  predicate IsWordChar(c: char)
  {
    ('a' <= c <= 'z') || ('A' <= c <= 'Z') || IsDigit(c) || c == '_'
  }

  /** `\b` at index `i`: a word character on exactly one side of it. The
      character before the start position counts, as it does for a pattern
      matched at a position inside the text. */
  predicate Boundary(code: string, i: nat)
    requires i <= |code|
  {
    (i > 0 && IsWordChar(code[i - 1])) != (i < |code| && IsWordChar(code[i]))
  }

  predicate StartsWithAt(code: string, w: string, pos: nat)
  {
    pos + |w| <= |code| && code[pos..pos + |w|] == w
  }

  /** `\b(w0|w1|...)\b` at `pos`: the first alternative, in order, that is
      present and followed by a boundary. */
  function MatchWords(code: string, pos: nat, words: seq<string>): (r: Option<nat>)
    requires pos <= |code|
    ensures r.Some? ==> exists k :: (0 <= k < |words| && |words[k]| > 0 && StartsWithAt(code, words[k], pos)
      && r.value == pos + |words[k]|)
    ensures r.Some? ==> Boundary(code, pos) && pos < r.value <= |code| && Boundary(code, r.value)
  {
    if !Boundary(code, pos) then None else MatchWordsFrom(code, pos, words)
  }

  function MatchWordsFrom(code: string, pos: nat, words: seq<string>): (r: Option<nat>)
    requires pos <= |code|
    ensures r.Some? ==> exists k :: (0 <= k < |words| && |words[k]| > 0 && StartsWithAt(code, words[k], pos)
      && r.value == pos + |words[k]|)
    ensures r.Some? ==> pos < r.value <= |code| && Boundary(code, r.value)
  {
    if words == [] then None
    else if |words[0]| > 0 && StartsWithAt(code, words[0], pos) && Boundary(code, pos + |words[0]|) then
      Some(pos + |words[0]|)
    else
      var r := MatchWordsFrom(code, pos, words[1..]);
      if r.Some? then
        var k :| 0 <= k < |words[1..]| && |words[1..][k]| > 0 && StartsWithAt(code, words[1..][k], pos)
          && r.value == pos + |words[1..][k]|;
        assert words[k + 1] == words[1..][k];
        r
      else r
  }

  /** The end of the longest run of characters satisfying the class from
      `pos` on. */
  function RunEnd(code: string, pos: nat, digits: bool): (e: nat)
    requires pos <= |code|
    ensures pos <= e <= |code|
    ensures forall i :: pos <= i < e ==> (if digits then IsDigit(code[i]) else IsPySpace(code[i]))
    ensures e < |code| ==> !(if digits then IsDigit(code[e]) else IsPySpace(code[e]))
    decreases |code| - pos
  {
    if pos < |code| && (if digits then IsDigit(code[pos]) else IsPySpace(code[pos])) then RunEnd(code, pos + 1, digits)
    else pos
  }

  /** The index of the first `"` at or after `from`, if any. */
  function NextQuote(code: string, from: nat): (r: Option<nat>)
    requires from <= |code|
    ensures r.Some? ==> (from <= r.value < |code| && code[r.value] == '"'
      && forall i :: from <= i < r.value ==> code[i] != '"')
    ensures r.None? ==> forall i :: from <= i < |code| ==> code[i] != '"'
    decreases |code| - from
  {
    if from == |code| then None else if code[from] == '"' then Some(from) else NextQuote(code, from + 1)
  }

  function SingleChar(code: string, pos: nat, c: char): Option<nat>
    requires pos < |code|
  {
    if code[pos] == c then Some(pos + 1) else None
  }

  /** Where the pattern of a token type, matched at `pos`, ends. */
  function MatchPattern(t: TokenType, code: string, pos: nat): (r: Option<nat>)
    requires pos < |code|
    ensures r.Some? ==> pos < r.value <= |code|
  {
    match t
    case KEYWORD => MatchWords(code, pos, KEYWORDS)
    case SIGNAL => MatchWords(code, pos, SIGNALS)
    case STRING =>
      if code[pos] != '"' then None
      else
        var q := NextQuote(code, pos + 1);
        if q.Some? then Some(q.value + 1) else None
    case NUMBER => var e := RunEnd(code, pos, true); if e > pos then Some(e) else None
    case DOT => SingleChar(code, pos, '.')
    case LPAREN => SingleChar(code, pos, '(')
    case RPAREN => SingleChar(code, pos, ')')
    case COMMA => SingleChar(code, pos, ',')
    case WHITESPACE => var e := RunEnd(code, pos, false); if e > pos then Some(e) else None
  }

  /** The first pattern, from index `k` of the list on, that matches. */
  function FirstMatchFrom(code: string, pos: nat, k: nat): (r: Option<(TokenType, nat)>)
    requires pos < |code| && k <= |PATTERNS|
    ensures r.Some? ==> exists j :: (k <= j < |PATTERNS| && PATTERNS[j] == r.value.0
      && MatchPattern(r.value.0, code, pos) == Some(r.value.1)
      && forall i :: k <= i < j ==> MatchPattern(PATTERNS[i], code, pos).None?)
    ensures r.None? ==> forall i :: k <= i < |PATTERNS| ==> MatchPattern(PATTERNS[i], code, pos).None?
    ensures r.Some? ==> pos < r.value.1 <= |code|
    decreases |PATTERNS| - k
  {
    if k == |PATTERNS| then None
    else
      var m := MatchPattern(PATTERNS[k], code, pos);
      if m.Some? then Some((PATTERNS[k], m.value)) else FirstMatchFrom(code, pos, k + 1)
  }

  function FirstMatch(code: string, pos: nat): (r: Option<(TokenType, nat)>)
    requires pos < |code|
    ensures r.Some? ==> pos < r.value.1 <= |code|
  {
    FirstMatchFrom(code, pos, 0)
  }

  function UnexpectedCharacter(code: string, pos: nat): string
    requires pos < |code|
  {
    "Unexpected character at position " + IntToString(pos) + ": " + [code[pos]]
  }

  /** The tokens of `code[pos..]`, or the message of the `SyntaxError`
      raised at the first character no pattern matches. */
  function Lex(code: string, pos: nat): Result<seq<Token>, string>
    requires pos <= |code|
    decreases |code| - pos
  {
    if pos == |code| then Ok([])
    else
      var m := FirstMatch(code, pos);
      if m.None? then Err(UnexpectedCharacter(code, pos))
      else Prepend(Made(code, pos, m.value.0, m.value.1), Lex(code, m.value.1))
  }

  /** The token a match of type `t` over `code[pos..e]` makes: none for
      whitespace. */
  function Made(code: string, pos: nat, t: TokenType, e: nat): (r: seq<Token>)
    requires pos <= e <= |code|
    ensures |r| <= 1
  {
    if t == WHITESPACE then [] else [Token(t, code[pos..e], pos)]
  }

  /** Tokens made in front of a result, or the result's error unchanged. */
  function Prepend(ts: seq<Token>, r: Result<seq<Token>, string>): Result<seq<Token>, string>
  {
    if r.Ok? then Ok(ts + r.value) else r
  }

  /** `Lexer(code)`: the text and the cursor; the tokens come from
      `Tokenize`, which the Python constructor runs at once. */
  class Lexer {
    const code: string
    var position: nat
    var tokens: seq<Token>

    constructor (code: string)
      ensures this.code == code && position == 0 && tokens == []
    {
      this.code := code;
      position := 0;
      tokens := [];
    }

    /** `_tokenize()`: the tokens of the whole text, or the syntax error. */
    method Tokenize() returns (error: Option<string>)
      requires position == 0 && tokens == []
      modifies this
      ensures var spec := Lex(code, 0);
        && (spec.Ok? ==> error.None? && tokens == spec.value)
        && (spec.Err? ==> error == Some(spec.error))
    {
      PrependNothing(Lex(code, 0));
      while position < |code|
        invariant position <= |code|
        invariant Lex(code, 0) == Prepend(tokens, Lex(code, position))
        decreases |code| - position
      {
        var m := MatchAt();
        if m.None? {
          return Some(UnexpectedCharacter(code, position));
        }
        var t := m.value.0;
        var end := m.value.1;
        LexAdvance(code, position, tokens);
        if t != WHITESPACE {
          tokens := tokens + [Token(t, code[position..end], position)];
        }
        position := end;
      }
      assert tokens + [] == tokens;
      return None;
    }

    /** The inner loop of `_tokenize()`: the patterns tried in order at the
        cursor, stopping at the first that matches. */
    method MatchAt() returns (m: Option<(TokenType, nat)>)
      requires position < |code|
      ensures m == FirstMatch(code, position)
    {
      var k := 0;
      while k < |PATTERNS|
        invariant 0 <= k <= |PATTERNS|
        invariant FirstMatch(code, position) == FirstMatchFrom(code, position, k)
      {
        var end := MatchPattern(PATTERNS[k], code, position);
        if end.Some? {
          return Some((PATTERNS[k], end.value));
        }
        k := k + 1;
      }
      return None;
    }
  }

  /** What is left to lex after one more match. */
  lemma LexAdvance(code: string, pos: nat, ts: seq<Token>)
    requires pos < |code| && FirstMatch(code, pos).Some?
    ensures var t := FirstMatch(code, pos).value.0; var e := FirstMatch(code, pos).value.1;
      Prepend(ts, Lex(code, pos))
        == Prepend(if t == WHITESPACE then ts else ts + [Token(t, code[pos..e], pos)], Lex(code, e))
  {
    var t := FirstMatch(code, pos).value.0;
    var e := FirstMatch(code, pos).value.1;
    PrependTwice(ts, Made(code, pos, t, e), Lex(code, e));
    assert ts + [] == ts;
  }

  lemma PrependNothing(r: Result<seq<Token>, string>)
    ensures Prepend([], r) == r
  {
    if r.Ok? {
      assert [] + r.value == r.value;
    }
  }

  lemma PrependTwice(a: seq<Token>, b: seq<Token>, r: Result<seq<Token>, string>)
    ensures Prepend(a, Prepend(b, r)) == Prepend(a + b, r)
  {
    if r.Ok? {
      assert a + (b + r.value) == (a + b) + r.value;
    }
  }

  // ------------------------------------------------------------ properties

  /** Every token is the text it was cut from, at least one character long,
      lies inside the source, is not whitespace, and starts after the
      previous token ends: tokens come out in source order with strictly
      increasing positions. */
  ghost predicate WellFormedTokens(code: string, pos: nat, ts: seq<Token>)
  {
    && (forall i :: 0 <= i < |ts| ==>
          && pos <= ts[i].position && |ts[i].value| >= 1 && ts[i].position + |ts[i].value| <= |code|
          && code[ts[i].position..ts[i].position + |ts[i].value|] == ts[i].value
          && ts[i].tokenType != WHITESPACE)
    && (forall i, j :: 0 <= i < j < |ts| ==> ts[i].position + |ts[i].value| <= ts[j].position)
  }

  lemma {:induction false} LexWellFormed(code: string, pos: nat)
    requires pos <= |code|
    ensures Lex(code, pos).Ok? ==> WellFormedTokens(code, pos, Lex(code, pos).value)
    decreases |code| - pos
  {
    if pos < |code| && FirstMatch(code, pos).Some? {
      var m := FirstMatch(code, pos).value;
      LexWellFormed(code, m.1);
      assert Lex(code, pos) == Prepend(Made(code, pos, m.0, m.1), Lex(code, m.1));
      if Lex(code, m.1).Ok? {
        var rest := Lex(code, m.1).value;
        if m.0 == WHITESPACE {
          assert Lex(code, pos).value == [] + rest == rest;
          WellFormedFrom(code, pos, m.1, rest);
        } else {
          WellFormedCons(code, pos, Token(m.0, code[pos..m.1], pos), rest);
        }
      }
    }
  }

  /** Tokens that all start at or after `later` also start at or after any
      earlier position. */
  lemma WellFormedFrom(code: string, pos: nat, later: nat, ts: seq<Token>)
    requires pos <= later && WellFormedTokens(code, later, ts)
    ensures WellFormedTokens(code, pos, ts)
  {
  }

  lemma WellFormedCons(code: string, pos: nat, t: Token, rest: seq<Token>)
    requires t.position == pos && pos + |t.value| <= |code| && |t.value| >= 1
    requires code[pos..pos + |t.value|] == t.value && t.tokenType != WHITESPACE
    requires WellFormedTokens(code, pos + |t.value|, rest)
    ensures WellFormedTokens(code, pos, [t] + rest)
  {
    var ts := [t] + rest;
    assert forall i :: 1 <= i < |ts| ==> ts[i] == rest[i - 1];
  }

  /** The token made at a position is of the first pattern in the list that
      matches there: a keyword wins over every other pattern. */
  lemma FirstPatternWins(code: string, pos: nat)
    requires pos < |code| && FirstMatch(code, pos).Some?
    ensures var (t, e) := FirstMatch(code, pos).value;
      exists j :: (0 <= j < |PATTERNS| && PATTERNS[j] == t && MatchPattern(t, code, pos) == Some(e)
        && forall i :: 0 <= i < j ==> MatchPattern(PATTERNS[i], code, pos).None?)
    ensures MatchPattern(KEYWORD, code, pos).Some? ==> FirstMatch(code, pos).value.0 == KEYWORD
  {
  }

  /** A character no pattern matches stops the lexer with its position. */
  lemma UnmatchedRaises(code: string, pos: nat)
    requires pos < |code|
    requires forall t :: MatchPattern(t, code, pos).None?
    ensures Lex(code, pos) == Err(UnexpectedCharacter(code, pos))
  {
    assert FirstMatchFrom(code, pos, 0).None?;
  }

  /** No alternative can match where no word starts with the character. */
  lemma {:induction false} NoWordStarts(code: string, pos: nat, words: seq<string>)
    requires pos < |code|
    requires forall k :: 0 <= k < |words| ==> |words[k]| == 0 || words[k][0] != code[pos]
    ensures MatchWordsFrom(code, pos, words).None? && MatchWords(code, pos, words).None?
  {
    if words != [] {
      if |words[0]| > 0 && pos + |words[0]| <= |code| {
        assert code[pos..pos + |words[0]|][0] == code[pos];
      }
      NoWordStarts(code, pos, words[1..]);
    }
  }

  /** A `"`-delimited text is one `STRING` token, quotes included. */
  lemma QuotedStringToken(code: string, pos: nat, x: string)
    requires StartsWithAt(code, "\"" + x + "\"", pos) && '"' !in x
    ensures FirstMatch(code, pos) == Some((STRING, pos + |x| + 2))
  {
    var s := "\"" + x + "\"";
    assert code[pos] == s[0];
    assert forall i :: pos + 1 <= i < pos + 1 + |x| ==> code[i] == x[i - pos - 1] by {
      forall i | pos + 1 <= i < pos + 1 + |x|
        ensures code[i] == x[i - pos - 1]
      {
        assert code[i] == code[pos..pos + |s|][i - pos] == s[i - pos];
      }
    }
    assert code[pos + 1 + |x|] == code[pos..pos + |s|][|x| + 1];
    NoWordStarts(code, pos, KEYWORDS);
    NoWordStarts(code, pos, SIGNALS);
    assert NextQuote(code, pos + 1) == Some(pos + 1 + |x|);
  }

  /** What the text of a token of each type can be. */
  predicate TokenText(t: Token)
  {
    match t.tokenType
    case KEYWORD => t.value in KEYWORDS
    case SIGNAL => t.value in SIGNALS
    case STRING => (|t.value| >= 2 && t.value[0] == '"' && t.value[|t.value| - 1] == '"'
      && forall i :: 0 < i < |t.value| - 1 ==> t.value[i] != '"')
    case NUMBER => |t.value| >= 1 && forall i :: 0 <= i < |t.value| ==> IsDigit(t.value[i])
    case DOT => t.value == "."
    case LPAREN => t.value == "("
    case RPAREN => t.value == ")"
    case COMMA => t.value == ","
    case WHITESPACE => |t.value| >= 1 && forall i :: 0 <= i < |t.value| ==> IsPySpace(t.value[i])
  }

  lemma MatchedText(code: string, pos: nat, t: TokenType)
    requires pos < |code| && MatchPattern(t, code, pos).Some?
    ensures TokenText(Token(t, code[pos..MatchPattern(t, code, pos).value], pos))
  {
    match t
    case KEYWORD => MatchedWord(code, pos, KEYWORDS);
    case SIGNAL => MatchedWord(code, pos, SIGNALS);
    case STRING => MatchedString(code, pos);
    case NUMBER => MatchedRun(code, pos, true);
    case WHITESPACE => MatchedRun(code, pos, false);
    case DOT =>
    case LPAREN =>
    case RPAREN =>
    case COMMA =>
  }

  lemma MatchedWord(code: string, pos: nat, words: seq<string>)
    requires pos < |code| && MatchWords(code, pos, words).Some?
    ensures code[pos..MatchWords(code, pos, words).value] in words
  {
    var e := MatchWords(code, pos, words).value;
    var k :| 0 <= k < |words| && |words[k]| > 0 && StartsWithAt(code, words[k], pos) && e == pos + |words[k]|;
    assert code[pos..e] == words[k];
  }

  lemma MatchedString(code: string, pos: nat)
    requires pos < |code| && MatchPattern(STRING, code, pos).Some?
    ensures TokenText(Token(STRING, code[pos..MatchPattern(STRING, code, pos).value], pos))
  {
    var e := MatchPattern(STRING, code, pos).value;
    var v := code[pos..e];
    assert forall i :: 0 < i < |v| - 1 ==> v[i] == code[pos + i];
  }

  lemma MatchedRun(code: string, pos: nat, digits: bool)
    requires pos < |code| && RunEnd(code, pos, digits) > pos
    ensures var v := code[pos..RunEnd(code, pos, digits)];
      forall i :: 0 <= i < |v| ==> (if digits then IsDigit(v[i]) else IsPySpace(v[i]))
  {
    var v := code[pos..RunEnd(code, pos, digits)];
    assert forall i :: 0 <= i < |v| ==> v[i] == code[pos + i];
  }

  /** Every token the lexer makes has the text its pattern allows: a
      keyword or signal word, a quoted text with no quote inside, a run of
      digits, or the one punctuation character. */
  lemma {:induction false} LexTexts(code: string, pos: nat)
    requires pos <= |code|
    ensures Lex(code, pos).Ok? ==> forall t :: t in Lex(code, pos).value ==> TokenText(t)
    decreases |code| - pos
  {
    if pos < |code| && FirstMatch(code, pos).Some? {
      var m := FirstMatch(code, pos).value;
      LexTexts(code, m.1);
      FirstPatternWins(code, pos);
      MatchedText(code, pos, m.0);
    }
  }
}
