/** Pulling the `AppBuilder(...)` method chain out of the source text of a
    Python function: the text is cut into lines, blank and comment lines
    are dropped, collection starts at the first line naming `AppBuilder(`
    (from that name on) and ends after the line holding `.get_contents()`.
    The kept lines are joined with `""` by the hand-written parser and with
    `" "` by the Lark front end; the separator is a parameter here. */
module DslExtract {
  import opened Common

  const APP_BUILDER := "AppBuilder("
  const GET_CONTENTS := ".get_contents()"

  /** A line the loop skips: blank once stripped, or a comment. */
  predicate Skipped(stripped: string)
  {
    stripped == [] || stripped[0] == '#'
  }

  /** No surrounding whitespace: what `strip()` leaves. */
  predicate Trimmed(t: string)
  {
    t == [] || (!IsPySpace(t[0]) && !IsPySpace(t[|t| - 1]))
  }

  /** What is left of a stripped line in the chain: trailing backslashes
      removed, then surrounding whitespace. */
  function Cleaned(text: string): string
  {
    Strip(RStripChar(text, '\\'))
  }

  /** What the loop reads in one line: nothing (a blank or comment line),
      or the text it would keep in the chain, whether the line names
      `AppBuilder(` (`opens`) and whether the kept text holds
      `.get_contents()` (`closes`). */
  datatype LineKind = Skip | Line(text: string, opens: bool, closes: bool)

  /** One line of the code, read as the loop body does. */
  function Classify(line: string): (r: LineKind)
    ensures r.Skip? <==> Skipped(Strip(line))
    ensures r.Line? ==> (r.opens <==> Contains(Strip(line), APP_BUILDER))
    ensures r.Line? ==> (r.closes <==> Contains(r.text, GET_CONTENTS))
  {
    var stripped := Strip(line);
    if Skipped(stripped) then Skip
    else
      var opens := Contains(stripped, APP_BUILDER);
      var text := Cleaned(if opens then stripped[Find(stripped, APP_BUILDER)..] else stripped);
      Line(text, opens, Contains(text, GET_CONTENTS))
  }

  function Classified(lines: seq<string>): seq<LineKind>
  {
    Map(lines, Classify)
  }

  /** The texts collected from the classified lines `kinds` when the chain
      has (`inChain`) or has not yet started: a line is kept when the chain
      is on or it opens the chain, an empty text is not added, and the line
      that closes the chain is the last one looked at. */
  function Collect(kinds: seq<LineKind>, inChain: bool): (r: seq<string>)
    ensures |r| <= |kinds|
    ensures forall k :: 0 <= k < |r| ==> r[k] != []
  {
    if kinds == [] then []
    else if kinds[0].Skip? || !(inChain || kinds[0].opens) then Collect(kinds[1..], inChain)
    else
      (if kinds[0].text != [] then [kinds[0].text] else [])
        + (if kinds[0].closes then [] else Collect(kinds[1..], true))
  }

  /** `extract_dsl_from_python`: the collected lines of the stripped code,
      joined with `sep`. */
  function ExtractDsl(code: string, sep: string): string
  {
    Join(Collect(Classified(Split(Strip(code), '\n')), false), sep)
  }

  /** The body of the loop of `extract_dsl_from_python` for one line:
      strip it, skip it when blank or a comment, cut it at `AppBuilder(`
      when it names it, then drop trailing backslashes and whitespace. */
  method ReadLine(line: string) returns (kind: LineKind)
    ensures kind == Classify(line)
  {
    var stripped := Strip(line);
    if Skipped(stripped) {
      return Skip;
    }
    var opens := Contains(stripped, APP_BUILDER);
    if opens {
      var start := Find(stripped, APP_BUILDER);
      stripped := stripped[start..];
    }
    stripped := Cleaned(stripped);
    kind := Line(stripped, opens, Contains(stripped, GET_CONTENTS));
  }

  /** `extract_dsl_from_python`: the code cut into lines, the chain
      collected and joined with `sep`. */
  method ExtractDslFromPython(code: string, sep: string) returns (r: string)
    ensures r == ExtractDsl(code, sep)
  {
    var dslLines := CollectChain(Split(Strip(code), '\n'));
    r := Join(dslLines, sep);
  }

  /** The loop of `extract_dsl_from_python`, with the `in_chain` flag and
      the `break` after `.get_contents()`. */
  method CollectChain(lines: seq<string>) returns (dslLines: seq<string>)
    ensures dslLines == Collect(Classified(lines), false)
  {
    dslLines := [];
    var inChain := false;
    var i := 0;
    assert lines[0..] == lines;
    while i < |lines|
      invariant 0 <= i <= |lines|
      invariant Collect(Classified(lines), false) == dslLines + Collect(Classified(lines[i..]), inChain)
    {
      var kind := ReadLine(lines[i]);
      CollectStep(lines, i, inChain);
      if kind.Skip? {
        i := i + 1;
        continue;
      }
      if kind.opens {
        inChain := true;
      }
      if inChain {
        ghost var head: seq<string> := if kind.text != [] then [kind.text] else [];
        ghost var rest := if kind.closes then [] else Collect(Classified(lines[i + 1..]), true);
        AppendAssoc(dslLines, head, rest);
        if kind.text != [] {
          dslLines := dslLines + [kind.text];
        } else {
          assert dslLines + head == dslLines;
        }
        if kind.closes {
          assert dslLines + rest == dslLines;
          break;
        }
      }
      i := i + 1;
    }
    if i == |lines| {
      assert lines[i..] == [];
      assert dslLines + [] == dslLines;
    }
  }

  /** One line of the loop, read as one step of `Collect`. */
  lemma CollectStep(lines: seq<string>, i: nat, inChain: bool)
    requires i < |lines|
    ensures var kind := Classify(lines[i]);
      Collect(Classified(lines[i..]), inChain)
      == if kind.Skip? || !(inChain || kind.opens) then Collect(Classified(lines[i + 1..]), inChain)
         else (if kind.text != [] then [kind.text] else [])
              + (if kind.closes then [] else Collect(Classified(lines[i + 1..]), true))
  {
    assert lines[i..][0] == lines[i] && lines[i..][1..] == lines[i + 1..];
  }

  // ------------------------------------------------------------ properties

  lemma AppendAssoc(a: seq<string>, b: seq<string>, c: seq<string>)
    ensures a + (b + c) == (a + b) + c
  {
  }

  /** Leading and trailing whitespace are gone after `strip()`. */
  lemma StripShape(s: string)
    ensures Trimmed(Strip(s))
  {
    var l := LStrip(s);
    var r := RStrip(l);
    if r != [] {
      assert r[0] == l[0];
    }
  }

  /** A kept text has no surrounding whitespace. */
  lemma KeptTrimmed(line: string)
    requires Classify(line).Line?
    ensures Trimmed(Classify(line).text)
  {
    var stripped := Strip(line);
    if Contains(stripped, APP_BUILDER) {
      StripShape(RStripChar(stripped[Find(stripped, APP_BUILDER)..], '\\'));
    } else {
      StripShape(RStripChar(stripped, '\\'));
    }
  }

  /** Every collected line is one kept text, so none has surrounding
      whitespace. */
  lemma CollectedTrimmed(lines: seq<string>, inChain: bool)
    ensures forall k :: 0 <= k < |Collect(Classified(lines), inChain)| ==> Trimmed(Collect(Classified(lines), inChain)[k])
  {
    var kinds := Classified(lines);
    MapLength(lines, Classify);
    forall k | 0 <= k < |kinds| && kinds[k].Line?
      ensures Trimmed(kinds[k].text)
    {
      MapAt(lines, Classify, k);
      KeptTrimmed(lines[k]);
    }
    CollectedFrom(kinds, inChain);
  }

  /** The collected texts are texts of the lines. */
  lemma {:induction false} CollectedFrom(kinds: seq<LineKind>, inChain: bool)
    requires forall k :: 0 <= k < |kinds| && kinds[k].Line? ==> Trimmed(kinds[k].text)
    ensures forall k :: 0 <= k < |Collect(kinds, inChain)| ==> Trimmed(Collect(kinds, inChain)[k])
  {
    if kinds != [] {
      CollectedFrom(kinds[1..], inChain);
      CollectedFrom(kinds[1..], true);
      if kinds[0].Line? && (inChain || kinds[0].opens) {
        var head: seq<string> := if kinds[0].text != [] then [kinds[0].text] else [];
        assert Trimmed(kinds[0].text);
        if !kinds[0].closes {
          var rest := Collect(kinds[1..], true);
          assert Collect(kinds, inChain) == head + rest;
          forall k | |head| <= k < |head + rest|
            ensures Trimmed((head + rest)[k])
          {
            assert (head + rest)[k] == rest[k - |head|];
          }
        } else {
          assert Collect(kinds, inChain) == head + [];
        }
      }
    }
  }

  /** Every collected line but the last lacks `.get_contents()`:
      collection stops at the first line that has it. */
  lemma {:induction false} CollectionStops(kinds: seq<LineKind>, inChain: bool)
    requires forall k :: 0 <= k < |kinds| && kinds[k].Line? ==> (kinds[k].closes <==> Contains(kinds[k].text, GET_CONTENTS))
    ensures forall k :: 0 <= k < |Collect(kinds, inChain)| - 1 ==> !Contains(Collect(kinds, inChain)[k], GET_CONTENTS)
  {
    if kinds != [] {
      CollectionStops(kinds[1..], inChain);
      CollectionStops(kinds[1..], true);
      if kinds[0].Line? && (inChain || kinds[0].opens) {
        var head: seq<string> := if kinds[0].text != [] then [kinds[0].text] else [];
        if !kinds[0].closes {
          var rest := Collect(kinds[1..], true);
          assert Collect(kinds, inChain) == head + rest;
          assert !Contains(kinds[0].text, GET_CONTENTS);
          forall k | |head| <= k < |head + rest| - 1
            ensures !Contains((head + rest)[k], GET_CONTENTS)
          {
            assert (head + rest)[k] == rest[k - |head|];
          }
        } else {
          assert Collect(kinds, inChain) == head + [];
        }
      }
    }
  }

  /** Lines that do not open the chain, before it has started, are
      ignored. */
  lemma {:induction false} LeadingLinesIgnored(prefix: seq<LineKind>, rest: seq<LineKind>)
    requires forall k :: 0 <= k < |prefix| ==> prefix[k].Skip? || !prefix[k].opens
    ensures Collect(prefix + rest, false) == Collect(rest, false)
  {
    if prefix != [] {
      assert (prefix + rest)[0] == prefix[0];
      assert (prefix + rest)[1..] == prefix[1..] + rest;
      LeadingLinesIgnored(prefix[1..], rest);
    } else {
      assert prefix + rest == rest;
    }
  }

  /** Before the chain has started, lines that do not open it give
      nothing. */
  lemma NoChainCollectsNothing(kinds: seq<LineKind>)
    requires forall k :: 0 <= k < |kinds| ==> kinds[k].Skip? || !kinds[k].opens
    ensures Collect(kinds, false) == []
  {
    LeadingLinesIgnored(kinds, []);
    assert kinds + [] == kinds;
  }

  /** The lines the loop does not skip. */
  function Unskipped(kinds: seq<LineKind>): (r: seq<LineKind>)
    ensures forall k :: 0 <= k < |r| ==> r[k].Line?
    ensures |r| <= |kinds|
  {
    if kinds == [] then []
    else if kinds[0].Skip? then Unskipped(kinds[1..])
    else [kinds[0]] + Unskipped(kinds[1..])
  }

  /** Blank and comment lines, wherever they are, make no difference. */
  lemma {:induction false} SkippedLinesIgnored(kinds: seq<LineKind>, inChain: bool)
    ensures Collect(kinds, inChain) == Collect(Unskipped(kinds), inChain)
  {
    if kinds != [] {
      SkippedLinesIgnored(kinds[1..], inChain);
      SkippedLinesIgnored(kinds[1..], true);
      if kinds[0].Line? {
        var u := [kinds[0]] + Unskipped(kinds[1..]);
        assert u[0] == kinds[0] && u[1..] == Unskipped(kinds[1..]);
      }
    }
  }

  /** A cleaned text that begins with `AppBuilder(` still does. */
  lemma CleanedKeepsAppBuilder(text: string)
    requires |text| >= |APP_BUILDER| && text[..|APP_BUILDER|] == APP_BUILDER
    ensures |Cleaned(text)| >= |APP_BUILDER| && Cleaned(text)[..|APP_BUILDER|] == APP_BUILDER
  {
    var n := |APP_BUILDER|;
    assert text[n - 1] == APP_BUILDER[n - 1] == '(';
    var t1 := RStripChar(text, '\\');
    assert |t1| >= n;
    assert t1[..n] == text[..n];
    assert t1[0] == APP_BUILDER[0] == 'A';
    var t2 := LStrip(t1);
    assert t2 == t1;
    var t3 := RStrip(t2);
    assert t2[n - 1] == '(';
    assert |t3| >= n;
    assert t3[..n] == t2[..n];
  }

  /** On the line that opens the chain the text before `AppBuilder(` is
      dropped: the kept text begins with `AppBuilder(`. */
  lemma OpeningText(line: string)
    requires Classify(line).Line? && Classify(line).opens
    ensures |Classify(line).text| >= |APP_BUILDER| && Classify(line).text[..|APP_BUILDER|] == APP_BUILDER
  {
    var stripped := Strip(line);
    OpeningLineText(line);
    FoundAtStart(stripped, APP_BUILDER);
    CleanedKeepsAppBuilder(stripped[Find(stripped, APP_BUILDER)..]);
  }

  lemma OpeningLineText(line: string)
    requires Classify(line).Line? && Classify(line).opens
    ensures Contains(Strip(line), APP_BUILDER)
    ensures Classify(line).text == Cleaned(Strip(line)[Find(Strip(line), APP_BUILDER)..])
  {
  }

  /** The text from the first occurrence of `sub` on begins with `sub`. */
  lemma FoundAtStart(s: string, sub: string)
    requires Contains(s, sub)
    ensures |s[Find(s, sub)..]| >= |sub| && s[Find(s, sub)..][..|sub|] == sub
  {
    var i := Find(s, sub);
    assert ContainsAt(s, sub, i);
    assert s[i..][..|sub|] == s[i..i + |sub|];
  }

  /** Collection starts at the first line that opens the chain: the
      lines before it are ignored and its text is the first collected. */
  lemma ChainStartsAtFirstOpening(prefix: seq<LineKind>, kinds: seq<LineKind>)
    requires forall k :: 0 <= k < |prefix| ==> prefix[k].Skip? || !prefix[k].opens
    requires kinds != [] && kinds[0].Line? && kinds[0].opens && kinds[0].text != []
    ensures |Collect(prefix + kinds, false)| >= 1 && Collect(prefix + kinds, false)[0] == kinds[0].text
  {
    LeadingLinesIgnored(prefix, kinds);
  }

  /** `sub in s` holds in any text around `s`. */
  lemma ContainsInfix(s: string, sub: string, pre: string, post: string)
    requires Contains(s, sub)
    ensures Contains(pre + s + post, sub)
  {
    var i: nat :| i + |sub| <= |s| && ContainsAt(s, sub, i);
    assert (pre + s + post)[|pre| + i..|pre| + i + |sub|] == s[i..i + |sub|];
    assert ContainsAt(pre + s + post, sub, |pre| + i);
  }

  /** A suffix of `s` cut down to one of its prefixes sits inside `s`. */
  lemma Sandwich(s: string, l: string, r: string)
    requires |l| <= |s| && l == s[|s| - |l|..]
    requires |r| <= |l| && r == l[..|r|]
    ensures s == s[..|s| - |l|] + r + l[|r|..]
  {
    assert s == s[..|s| - |l|] + s[|s| - |l|..];
    assert l == l[..|r|] + l[|r|..];
  }

  /** A stripped text sits inside the original text. */
  lemma StripInfix(s: string) returns (pre: string, post: string)
    ensures s == pre + Strip(s) + post
  {
    var l := LStrip(s);
    var r := RStrip(l);
    Sandwich(s, l, r);
    pre, post := s[..|s| - |l|], l[|r|..];
  }

  /** Every piece of a joined sequence sits inside the joined text. */
  lemma {:induction false} JoinInfix(parts: seq<string>, sep: string, k: nat) returns (pre: string, post: string)
    requires k < |parts|
    ensures Join(parts, sep) == pre + parts[k] + post
  {
    if |parts| == 1 {
      pre, post := [], [];
    } else if k == 0 {
      pre, post := [], sep + Join(parts[1..], sep);
    } else {
      var p, q := JoinInfix(parts[1..], sep, k - 1);
      pre, post := parts[0] + sep + p, q;
    }
  }

  /** Code in which `AppBuilder(` never occurs gives the empty string. */
  lemma NoAppBuilderGivesEmpty(code: string, sep: string)
    requires !Contains(code, APP_BUILDER)
    ensures ExtractDsl(code, sep) == ""
  {
    var lines := Split(Strip(code), '\n');
    var kinds := Classified(lines);
    MapLength(lines, Classify);
    forall k | 0 <= k < |kinds|
      ensures kinds[k].Skip? || !kinds[k].opens
    {
      MapAt(lines, Classify, k);
      LineOpensNothing(code, lines, k);
    }
    NoChainCollectsNothing(kinds);
    assert ExtractDsl(code, sep) == Join(Collect(kinds, false), sep);
  }

  /** Without `AppBuilder(` in the code, no line opens the chain. */
  lemma LineOpensNothing(code: string, lines: seq<string>, k: nat)
    requires lines == Split(Strip(code), '\n') && k < |lines|
    requires !Contains(code, APP_BUILDER)
    ensures Classify(lines[k]).Skip? || !Classify(lines[k]).opens
  {
    if Contains(Strip(lines[k]), APP_BUILDER) {
      LineInsideCode(code, lines, k);
      assert false;
    }
  }

  /** What a line of the code contains, the code contains. */
  lemma LineInsideCode(code: string, lines: seq<string>, k: nat)
    requires lines == Split(Strip(code), '\n') && k < |lines|
    requires Contains(Strip(lines[k]), APP_BUILDER)
    ensures Contains(code, APP_BUILDER)
  {
    var p1, q1 := StripInfix(lines[k]);
    ContainsInfix(Strip(lines[k]), APP_BUILDER, p1, q1);
    var p2, q2 := JoinInfix(lines, "\n", k);
    ContainsInfix(lines[k], APP_BUILDER, p2, q2);
    var p3, q3 := StripInfix(code);
    ContainsInfix(Strip(code), APP_BUILDER, p3, q3);
  }
}
