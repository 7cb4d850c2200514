/** The language server's custom checks: a warning when the application's
    name does not start with a capital, and a warning when an LCD message
    may not fit on one 16-character line of the display. Neither check ever
    reports an error. */
module LangiumValidator {
  import opened Common
  import opened Ast

  /** A diagnostic passed to the validation acceptor: its severity, message
      and the property of the node it is attached to. */
  datatype Diagnostic = Diagnostic(severity: string, message: string, property: string)

  const MAX_LCD_LENGTH: nat := 16
  const CAPITAL_WARNING: string := "App name should start with a capital."

  predicate IsAsciiLower(c: char)
  {
    'a' <= c <= 'z'
  }

  /** `toUpperCase` on one character, for the ASCII range. */
  function UpperChar(c: char): char
  {
    if IsAsciiLower(c) then (c as int - 32) as char else c
  }

  /** `string.toUpperCase`, character by character. */
  function ToUpperCase(s: string): (r: string)
    ensures |r| == |s|
  {
    if s == [] then [] else [UpperChar(s[0])] + ToUpperCase(s[1..])
  }

  /** `checkNothing`: a warning on `name` when the first character of a
      non-empty name changes under upper-casing. */
  function CheckNothing(name: string): (r: Option<Diagnostic>)
    ensures r.Some? <==> |name| >= 1 && IsAsciiLower(name[0])
    ensures r.Some? ==> r.value == Diagnostic("warning", CAPITAL_WARNING, "name")
  {
    if name != "" then
      var firstChar := name[..1];
      if ToUpperCase(firstChar) != firstChar then Some(Diagnostic("warning", CAPITAL_WARNING, "name"))
      else None
    else None
  }

  /** How many UTF-16 code units JavaScript stores for a character: a
      surrogate pair for one outside the Basic Multilingual Plane. */
  function CodeUnits(c: char): nat
  {
    if c as int >= 0x1_0000 then 2 else 1
  }

  /** JavaScript's `.length` of a text: its length in UTF-16 code units. */
  function Utf16Length(s: string): nat
  {
    if s == [] then 0 else Utf16Length(s[..|s| - 1]) + CodeUnits(s[|s| - 1])
  }

  /** `text.slice(1, -1).length`: `slice` drops the first and the last code
      unit, and leaves nothing of a text shorter than two code units. */
  function UnquotedLength(text: string): nat
  {
    if Utf16Length(text) >= 2 then Utf16Length(text) - 2 else 0
  }

  /** What one part adds to the estimate: its text's length without the
      quotes, or 10 for a brick's status. */
  function PartEstimate(p: LcdPart): nat
  {
    match p
    case ConstantPart(text) => UnquotedLength(text)
    case BrickStatusPart(_) => 10
  }

  /** The estimated length of a message, summed left to right. */
  function EstimatedLength(parts: seq<LcdPart>): nat
  {
    if parts == [] then 0 else EstimatedLength(parts[..|parts| - 1]) + PartEstimate(parts[|parts| - 1])
  }

  function LengthWarning(estimate: nat): string
  {
    "LCD message may be too long (estimated " + IntToString(estimate) + " chars). Maximum is "
    + IntToString(MAX_LCD_LENGTH) + " characters."
  }

  /** `checkLCDMessageLength`: at most one warning, on `parts`, exactly when
      the estimate exceeds 16, and it reports the estimate. */
  method CheckLCDMessageLength(parts: seq<LcdPart>) returns (r: Option<Diagnostic>)
    ensures r.Some? <==> EstimatedLength(parts) > MAX_LCD_LENGTH
    ensures r.Some? ==> r.value == Diagnostic("warning", LengthWarning(EstimatedLength(parts)), "parts")
  {
    var estimatedLength: nat := 0;
    for i := 0 to |parts|
      invariant estimatedLength == EstimatedLength(parts[..i])
    {
      assert parts[..i + 1][..i] == parts[..i];
      match parts[i] {
        case ConstantPart(text) =>
          estimatedLength := estimatedLength + UnquotedLength(text);
        case BrickStatusPart(_) =>
          estimatedLength := estimatedLength + 10;
      }
    }
    assert parts[..|parts|] == parts;
    if estimatedLength > MAX_LCD_LENGTH {
      return Some(Diagnostic("warning", LengthWarning(estimatedLength), "parts"));
    }
    return None;
  }

  // ------------------------------------------------------------ properties

  /** The number of brick status parts in a message. */
  function BrickPartCount(parts: seq<LcdPart>): nat
  {
    if parts == [] then 0
    else BrickPartCount(parts[..|parts| - 1]) + (if parts[|parts| - 1].BrickStatusPart? then 1 else 0)
  }

  /** The estimate is the quoted texts' inner lengths plus ten per brick
      part, so it is at least ten per brick part. */
  lemma {:induction false} EstimateCoversBricks(parts: seq<LcdPart>)
    ensures EstimatedLength(parts) >= 10 * BrickPartCount(parts)
  {
    if parts != [] {
      EstimateCoversBricks(parts[..|parts| - 1]);
    }
  }

  /** Two brick statuses already exceed the line, whatever else is shown. */
  lemma TwoBricksOverflow(parts: seq<LcdPart>)
    requires BrickPartCount(parts) >= 2
    ensures EstimatedLength(parts) > MAX_LCD_LENGTH
  {
    EstimateCoversBricks(parts);
  }

  /** The estimate of a message is the sum of the estimates of its halves. */
  lemma {:induction false} EstimatedLengthAppend(xs: seq<LcdPart>, ys: seq<LcdPart>)
    ensures EstimatedLength(xs + ys) == EstimatedLength(xs) + EstimatedLength(ys)
    decreases |ys|
  {
    if ys == [] {
      assert xs + ys == xs;
    } else {
      var init := ys[..|ys| - 1];
      assert (xs + ys)[..|xs + ys| - 1] == xs + init;
      EstimatedLengthAppend(xs, init);
    }
  }

  /** A single quoted text is measured without its quotes: it fits exactly
      when the text between them has at most 16 UTF-16 code units. */
  lemma QuotedTextMeasured(x: string)
    ensures EstimatedLength([ConstantPart("\"" + x + "\"")]) == Utf16Length(x)
    ensures EstimatedLength([ConstantPart("\"" + x + "\"")]) > MAX_LCD_LENGTH <==> Utf16Length(x) > 16
  {
    assert [ConstantPart("\"" + x + "\"")][..0] == [];
    Utf16Append("\"" + x, "\"");
    Utf16Append("\"", x);
  }

  lemma {:induction false} Utf16Append(a: string, b: string)
    ensures Utf16Length(a + b) == Utf16Length(a) + Utf16Length(b)
    decreases |b|
  {
    if b == [] {
      assert a + b == a;
    } else {
      var init := b[..|b| - 1];
      assert (a + b)[..|a + b| - 1] == a + init;
      Utf16Append(a, init);
    }
  }

  /** `.length` counts every character at least once, and counts exactly the
      characters when none lies outside the Basic Multilingual Plane. */
  lemma {:induction false} Utf16LengthBounds(s: string)
    ensures |s| <= Utf16Length(s) <= 2 * |s|
    ensures Utf16Length(s) == |s| <==> forall i :: 0 <= i < |s| ==> s[i] as int < 0x1_0000
  {
    if s != [] {
      var init := s[..|s| - 1];
      Utf16LengthBounds(init);
      if Utf16Length(s) == |s| {
        forall i | 0 <= i < |s|
          ensures s[i] as int < 0x1_0000
        {
          if i < |s| - 1 {
            assert s[i] == init[i];
          }
        }
      }
      if forall i :: 0 <= i < |s| ==> s[i] as int < 0x1_0000 {
        assert forall i :: 0 <= i < |init| ==> init[i] == s[i];
      }
    }
  }

  /** Fifteen digits and an emoji are 17 code units: the message warns,
      although it shows 16 characters. */
  lemma EmojiCountsTwice()
    ensures EstimatedLength([ConstantPart("\"123456789012345\U{1F600}\"")]) == 17
  {
    var digits, emoji := "123456789012345", "\U{1F600}";
    QuotedTextMeasured(digits + emoji);
    assert "\"" + (digits + emoji) + "\"" == "\"123456789012345\U{1F600}\"";
    Utf16Append(digits, emoji);
    assert forall i :: 0 <= i < |digits| ==> digits[i] as int < 0x1_0000;
    Utf16LengthBounds(digits);
    assert emoji[..0] == [];
    assert Utf16Length(emoji) == 2;
  }
}
