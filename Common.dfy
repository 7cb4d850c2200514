/** Shared value types and the string operations the generators and the
    Python front end rely on: decimal rendering of numbers (JavaScript
    template literals, Python f-strings), joining, substring search and
    Python's whitespace stripping and splitting. */
module Common {

  datatype Option<T> = None | Some(value: T)

  /** An operation that either returns a value or raises/throws. */
  datatype Result<T, E> = Ok(value: T) | Err(error: E)
  {
    predicate IsFailure() { Err? }

    function PropagateFailure<U>(): Result<U, E>
      requires Err?
    {
      Err(error)
    }

    function Extract(): T
      requires Ok?
    {
      value
    }
  }

  /** No element occurs twice. */
  predicate NoDup<T(==)>(s: seq<T>)
  {
    forall i, j :: 0 <= i < j < |s| ==> s[i] != s[j]
  }

  // ---------------------------------------------------------------- numbers

  predicate IsDigit(c: char) { '0' <= c <= '9' }

  function DigitChar(d: nat): (c: char)
    requires d < 10
    ensures IsDigit(c) && c as int - '0' as int == d
  {
    (d + '0' as int) as char
  }

  /** Decimal text of a natural number, as `${n}` renders it. */
  function NatToString(n: nat): (s: string)
    ensures |s| >= 1
    ensures forall i :: 0 <= i < |s| ==> IsDigit(s[i])
    ensures n > 0 ==> s[0] != '0'
    decreases n
  {
    if n < 10 then [DigitChar(n)] else NatToString(n / 10) + [DigitChar(n % 10)]
  }

  /** Decimal text of an integer, with a leading `-` when negative. */
  function IntToString(i: int): string
  {
    if i < 0 then "-" + NatToString(-i) else NatToString(i)
  }

  /** The value of a string of decimal digits, as Python's `int(s)` reads it. */
  function DigitsValue(s: string): nat
    requires forall i :: 0 <= i < |s| ==> IsDigit(s[i])
  {
    if s == [] then 0
    else
      assert IsDigit(s[|s| - 1]);
      DigitsValue(s[..|s| - 1]) * 10 + (s[|s| - 1] as int - '0' as int)
  }

  /** Reading back the decimal text of a number gives the number. */
  lemma {:induction false} DigitsValueOfNatToString(n: nat)
    ensures DigitsValue(NatToString(n)) == n
  {
    var s := NatToString(n);
    if n >= 10 {
      DigitsValueOfNatToString(n / 10);
      assert s[..|s| - 1] == NatToString(n / 10);
    }
  }

  /** Distinct numbers render as distinct text. */
  lemma NatToStringInjective(a: nat, b: nat)
    requires NatToString(a) == NatToString(b)
    ensures a == b
  {
    DigitsValueOfNatToString(a);
    DigitsValueOfNatToString(b);
  }

  // ---------------------------------------------------------------- mapping

  /** `f` applied to every element, in order. */
  function Map<A, B>(xs: seq<A>, f: A -> B): seq<B>
  {
    if xs == [] then [] else [f(xs[0])] + Map(xs[1..], f)
  }

  lemma {:induction false} MapLength<A, B>(xs: seq<A>, f: A -> B)
    ensures |Map(xs, f)| == |xs|
  {
    if xs != [] {
      MapLength(xs[1..], f);
    }
  }

  lemma {:induction false} MapAt<A, B>(xs: seq<A>, f: A -> B, k: nat)
    requires k < |xs|
    ensures |Map(xs, f)| == |xs| && Map(xs, f)[k] == f(xs[k])
  {
    MapLength(xs, f);
    if k > 0 {
      MapAt(xs[1..], f, k - 1);
      assert xs[1..][k - 1] == xs[k];
    }
  }

  // ---------------------------------------------------------------- joining

  /** `parts.join(sep)` (JavaScript) or `sep.join(parts)` (Python). */
  function Join(parts: seq<string>, sep: string): string
  {
    if |parts| == 0 then ""
    else if |parts| == 1 then parts[0]
    else parts[0] + sep + Join(parts[1..], sep)
  }

  /** Concatenation of a sequence of text fragments. */
  function Concat(parts: seq<string>): string
  {
    if parts == [] then "" else parts[0] + Concat(parts[1..])
  }

  lemma {:induction false} ConcatAppend(a: seq<string>, b: seq<string>)
    ensures Concat(a + b) == Concat(a) + Concat(b)
  {
    if a != [] {
      assert (a + b)[0] == a[0] && (a + b)[1..] == a[1..] + b;
      ConcatAppend(a[1..], b);
    } else {
      assert a + b == b;
    }
  }

  /** Joining one more part extends the joined text at its end. */
  lemma {:induction false} JoinSnoc(parts: seq<string>, x: string, sep: string)
    requires |parts| >= 1
    ensures Join(parts + [x], sep) == Join(parts, sep) + sep + x
  {
    if |parts| == 1 {
      assert (parts + [x])[1..] == [x];
    } else {
      assert (parts + [x])[1..] == parts[1..] + [x];
      JoinSnoc(parts[1..], x, sep);
    }
  }

  /** Where the `k`-th part sits inside a joined text. */
  lemma {:induction false} JoinPartAt(parts: seq<string>, sep: string, k: nat) returns (w: nat)
    requires k < |parts|
    ensures w + |parts[k]| <= |Join(parts, sep)| && Join(parts, sep)[w..w + |parts[k]|] == parts[k]
  {
    if |parts| == 1 {
      w := 0;
    } else if k == 0 {
      w := 0;
      assert Join(parts, sep) == parts[0] + (sep + Join(parts[1..], sep));
    } else {
      var w' := JoinPartAt(parts[1..], sep, k - 1);
      w := |parts[0]| + |sep| + w';
      var j := Join(parts, sep);
      assert j == (parts[0] + sep) + Join(parts[1..], sep);
      assert j[w..w + |parts[k]|] == Join(parts[1..], sep)[w'..w' + |parts[k]|];
    }
  }

  /** `x` occurs in `s` ending no later than an occurrence of `y` starts. */
  ghost predicate OccursBefore(s: string, x: string, y: string)
  {
    exists a: nat, b: nat :: a + |x| <= b && ContainsAt(s, x, a) && ContainsAt(s, y, b)
  }

  /** Text around `s` keeps the order of what occurs in it. */
  lemma OccursBeforeInside(p: string, s: string, q: string, x: string, y: string)
    requires OccursBefore(s, x, y)
    ensures OccursBefore(p + s + q, x, y)
  {
    var a: nat, b: nat :| a + |x| <= b && ContainsAt(s, x, a) && ContainsAt(s, y, b);
    var t := p + s + q;
    assert t[|p| + a..|p| + a + |x|] == s[a..a + |x|];
    assert t[|p| + b..|p| + b + |y|] == s[b..b + |y|];
    assert ContainsAt(t, x, |p| + a) && ContainsAt(t, y, |p| + b);
  }

  /** The parts keep their order in the joined text. */
  lemma {:induction false} JoinKeepsOrder(parts: seq<string>, sep: string, i: nat, j: nat)
    requires i < j < |parts|
    ensures OccursBefore(Join(parts, sep), parts[i], parts[j])
  {
    var rest := Join(parts[1..], sep);
    assert Join(parts, sep) == parts[0] + sep + rest;
    if i == 0 {
      var w := JoinPartAt(parts[1..], sep, j - 1);
      var t := Join(parts, sep);
      var b := |parts[0]| + |sep| + w;
      assert t[b..b + |parts[j]|] == rest[w..w + |parts[j]|];
      assert ContainsAt(t, parts[0], 0) && ContainsAt(t, parts[j], b);
    } else {
      JoinKeepsOrder(parts[1..], sep, i - 1, j - 1);
      OccursBeforeInside(parts[0] + sep, rest, [], parts[i], parts[j]);
      assert parts[0] + sep + rest + [] == Join(parts, sep);
    }
  }

  // ---------------------------------------------------------------- search

  predicate ContainsAt(s: string, sub: string, i: nat)
  {
    i + |sub| <= |s| && s[i..i + |sub|] == sub
  }

  /** Python's `sub in s` and JavaScript's `s.includes(sub)`. */
  predicate Contains(s: string, sub: string)
  {
    exists i: nat :: i + |sub| <= |s| && ContainsAt(s, sub, i)
  }

  /** Python's `s.find(sub)`: the first index at which `sub` occurs, or -1. */
  function Find(s: string, sub: string): (r: int)
    ensures r >= -1
    ensures r == -1 <==> !Contains(s, sub)
    ensures r >= 0 ==> ContainsAt(s, sub, r) && forall j: nat :: j < r ==> !ContainsAt(s, sub, j)
    decreases |s|
  {
    if |sub| > |s| then -1
    else if s[..|sub|] == sub then
      assert ContainsAt(s, sub, 0);
      0
    else
      var k := Find(s[1..], sub);
      FindStep(s, sub, k);
      if k == -1 then -1 else k + 1
  }

  /** Occurrences past the first character are those of the tail, shifted by one. */
  lemma FindStep(s: string, sub: string, k: int)
    requires |sub| <= |s| && s[..|sub|] != sub && k >= -1
    requires k == -1 <==> !Contains(s[1..], sub)
    requires k >= 0 ==> ContainsAt(s[1..], sub, k) && forall j: nat :: j < k ==> !ContainsAt(s[1..], sub, j)
    ensures k == -1 <==> !Contains(s, sub)
    ensures k >= 0 ==> ContainsAt(s, sub, k + 1) && forall j: nat :: j < k + 1 ==> !ContainsAt(s, sub, j)
  {
    assert !ContainsAt(s, sub, 0) by { assert s[0..|sub|] == s[..|sub|]; }
    forall j: nat
      ensures ContainsAt(s[1..], sub, j) <==> ContainsAt(s, sub, j + 1)
    {
      if j + |sub| <= |s| - 1 {
        assert s[1..][j..j + |sub|] == s[j + 1..j + 1 + |sub|];
      }
    }
    if Contains(s, sub) {
      var i: nat :| i + |sub| <= |s| && ContainsAt(s, sub, i);
      assert i >= 1 && ContainsAt(s[1..], sub, i - 1);
    }
    if k >= 0 {
      var w: nat := k + 1;
      assert ContainsAt(s, sub, w);
      forall j: nat | j < k + 1
        ensures !ContainsAt(s, sub, j)
      {
        if j > 0 {
          assert !ContainsAt(s[1..], sub, j - 1);
        }
      }
    }
  }

  // ---------------------------------------------------------------- whitespace

  /** Python's `str.isspace()` for a single character. */
  predicate IsPySpace(c: char)
  {
    || c == ' ' || c == '\t' || c == '\n' || c == '\r'
    || c == '\U{000B}' || c == '\U{000C}'
    || ('\U{001C}' <= c <= '\U{001F}')
    || c == '\U{0085}' || c == '\U{00A0}' || c == '\U{1680}'
    || ('\U{2000}' <= c <= '\U{200A}')
    || c == '\U{2028}' || c == '\U{2029}' || c == '\U{202F}' || c == '\U{205F}' || c == '\U{3000}'
  }

  /** Python's `s.lstrip()`. */
  function LStrip(s: string): (r: string)
    ensures |r| <= |s| && r == s[|s| - |r|..]
    ensures r == [] || !IsPySpace(r[0])
    ensures forall i :: 0 <= i < |s| - |r| ==> IsPySpace(s[i])
  {
    if s != [] && IsPySpace(s[0]) then LStrip(s[1..]) else s
  }

  /** Python's `s.rstrip()`. */
  function RStrip(s: string): (r: string)
    ensures |r| <= |s| && r == s[..|r|]
    ensures r == [] || !IsPySpace(r[|r| - 1])
    ensures forall i :: |r| <= i < |s| ==> IsPySpace(s[i])
  {
    if s != [] && IsPySpace(s[|s| - 1]) then RStrip(s[..|s| - 1]) else s
  }

  /** Python's `s.strip()`. */
  function Strip(s: string): string
  {
    RStrip(LStrip(s))
  }

  /** Python's `s.rstrip(c)` for a one-character argument. */
  function RStripChar(s: string, c: char): (r: string)
    ensures |r| <= |s| && r == s[..|r|]
    ensures r == [] || r[|r| - 1] != c
    ensures forall i :: |r| <= i < |s| ==> s[i] == c
  {
    if s != [] && s[|s| - 1] == c then RStripChar(s[..|s| - 1], c) else s
  }

  // ---------------------------------------------------------------- splitting

  /** Python's `s.lstrip(c)` for a single character `c`. */
  function LStripChar(s: string, c: char): (r: string)
    ensures |r| <= |s| && r == s[|s| - |r|..]
    ensures r == [] || r[0] != c
    ensures forall i :: 0 <= i < |s| - |r| ==> s[i] == c
  {
    if s != [] && s[0] == c then LStripChar(s[1..], c) else s
  }

  /** Python's `s.strip(c)` for a single character `c`. */
  function StripChar(s: string, c: char): string
  {
    LStripChar(RStripChar(s, c), c)
  }

  function IndexOfChar(s: string, c: char): (i: nat)
    requires c in s
    ensures i < |s| && s[i] == c && c !in s[..i]
  {
    if s[0] == c then 0 else IndexOfChar(s[1..], c) + 1
  }

  /** Python's `s.split(c)`: the pieces between the separators, always at
      least one; joining them back with `c` gives `s` again. */
  function Split(s: string, c: char): (r: seq<string>)
    ensures |r| >= 1
    ensures forall k :: 0 <= k < |r| ==> c !in r[k]
    ensures Join(r, [c]) == s
    decreases |s|
  {
    if c !in s then [s]
    else
      var i := IndexOfChar(s, c);
      var rest := Split(s[i + 1..], c);
      assert ([s[..i]] + rest)[1..] == rest;
      assert s == s[..i] + [c] + s[i + 1..];
      [s[..i]] + rest
  }
}
