/** The pieces of a transition guard shared by both Langium generators:
    the distinct digital sensors a transition reads (which get debounced),
    the left-to-right joining of its conditions with `&&`/`||`, and the
    debounce conjunct. */
module Guards {
  import opened Common
  import opened Ast

  // ------------------------------------------------------------ debounced sensors

  /** A condition whose brick reference resolves to a `Sensor`. */
  predicate ReadsSensor(c: Condition)
  {
    c.brick.Resolved? && c.brick.target.kind == Sensor
  }

  /** The `Sensor` bricks the conditions reference, in condition order,
      repeats included. */
  function ReferencedSensors(conds: seq<Condition>): (r: seq<Brick>)
    ensures forall b :: b in r ==> b.kind == Sensor
    ensures forall c :: c in conds && ReadsSensor(c) ==> c.brick.target in r
  {
    if conds == [] then []
    else
      var last := conds[|conds| - 1];
      ReferencedSensors(conds[..|conds| - 1]) + (if ReadsSensor(last) then [last.brick.target] else [])
  }

  /** The first occurrence of every element, in order of first occurrence. */
  function Dedup<T(==)>(s: seq<T>): seq<T>
  {
    if s == [] then []
    else
      var d := Dedup(s[..|s| - 1]);
      if s[|s| - 1] in d then d else d + [s[|s| - 1]]
  }

  /** The position of the first occurrence of `x`. */
  function FirstIndex<T(==)>(s: seq<T>, x: T): (i: nat)
    requires x in s
    ensures i < |s| && s[i] == x && x !in s[..i]
  {
    if s[0] == x then 0 else 1 + FirstIndex(s[1..], x)
  }

  lemma {:induction false} DedupMembers<T>(s: seq<T>)
    ensures forall x :: x in Dedup(s) <==> x in s
  {
    if s != [] {
      DedupMembers(s[..|s| - 1]);
      assert s == s[..|s| - 1] + [s[|s| - 1]];
    }
  }

  /** Each element is kept exactly once. */
  lemma {:induction false} DedupNoDup<T>(s: seq<T>)
    ensures NoDup(Dedup(s))
  {
    if s != [] {
      DedupNoDup(s[..|s| - 1]);
    }
  }

  lemma {:induction false} FirstIndexOfPrefix<T>(s: seq<T>, x: T, y: T)
    requires y in s
    ensures FirstIndex(s + [x], y) == FirstIndex(s, y)
  {
    assert (s + [x])[0] == s[0];
    if s[0] != y {
      assert (s + [x])[1..] == s[1..] + [x];
      FirstIndexOfPrefix(s[1..], x, y);
    }
  }

  lemma DedupElement<T>(s: seq<T>, i: nat)
    requires i < |Dedup(s)|
    ensures Dedup(s)[i] in s
  {
    DedupMembers(s);
    assert Dedup(s)[i] in Dedup(s);
  }

  /** Every element of `d` occurs in `s`, and earlier elements of `d` occur
      first earlier in `s`. */
  ghost predicate FirstSeenOrder<T>(s: seq<T>, d: seq<T>)
  {
    forall i, j :: 0 <= i < j < |d| ==> SeenBefore(s, d, i, j)
  }

  /** `d[i]` and `d[j]` occur in `s`, `d[i]` first. */
  ghost predicate SeenBefore<T>(s: seq<T>, d: seq<T>, i: nat, j: nat)
    requires i < |d| && j < |d|
  {
    d[i] in s && d[j] in s && FirstIndex(s, d[i]) < FirstIndex(s, d[j])
  }

  /** The kept elements appear in the order of their first occurrences. */
  lemma {:induction false} DedupFirstSeenOrder<T>(s: seq<T>)
    ensures FirstSeenOrder(s, Dedup(s))
  {
    if s != [] {
      var p := s[..|s| - 1];
      var x := s[|s| - 1];
      assert s == p + [x];
      DedupFirstSeenOrder(p);
      var d := Dedup(s);
      forall i, j | 0 <= i < j < |d|
        ensures SeenBefore(s, d, i, j)
      {
        DedupPairOrder(p, x, i, j);
      }
    } else {
      assert Dedup(s) == [];
    }
  }

  /** One pair of kept elements after one more element is seen. */
  lemma DedupPairOrder<T>(p: seq<T>, x: T, i: nat, j: nat)
    requires FirstSeenOrder(p, Dedup(p))
    requires i < j < |Dedup(p + [x])|
    ensures SeenBefore(p + [x], Dedup(p + [x]), i, j)
  {
    var s := p + [x];
    assert s[..|s| - 1] == p && s[|s| - 1] == x;
    DedupMembers(p);
    var d := Dedup(p);
    assert Dedup(s) == if x in d then d else d + [x];
    assert i < |d| && Dedup(s)[i] == d[i];
    DedupElement(p, i);
    FirstIndexOfPrefix(p, x, d[i]);
    if j < |d| {
      assert Dedup(s)[j] == d[j];
      DedupElement(p, j);
      FirstIndexOfPrefix(p, x, d[j]);
      assert SeenBefore(p, d, i, j);
    } else {
      assert Dedup(s)[j] == x && x !in d;
      assert FirstIndex(s, x) == |p| by {
        assert s[..|p|] == p;
      }
    }
  }

  /** The debounced sensors of a transition. */
  function DebouncedSensors(conds: seq<Condition>): seq<Brick>
  {
    Dedup(ReferencedSensors(conds))
  }

  /** The sensor-collecting loop of `compileTransition`: a resolved `Sensor`
      brick is pushed unless the list already holds it. */
  method CollectSensors(conds: seq<Condition>) returns (sensors: seq<Brick>)
    ensures sensors == DebouncedSensors(conds)
  {
    sensors := [];
    var i := 0;
    while i < |conds|
      invariant 0 <= i <= |conds|
      invariant sensors == Dedup(ReferencedSensors(conds[..i]))
    {
      assert conds[..i + 1][..i] == conds[..i];
      var c := conds[i];
      ghost var r := ReferencedSensors(conds[..i]);
      if ReadsSensor(c) {
        assert ReferencedSensors(conds[..i + 1]) == r + [c.brick.target];
        assert (r + [c.brick.target])[..|r|] == r;
      } else {
        assert ReferencedSensors(conds[..i + 1]) == r;
      }
      if c.brick.Resolved? && c.brick.target.kind == Sensor && c.brick.target !in sensors {
        sensors := sensors + [c.brick.target];
      }
      i := i + 1;
    }
    assert conds[..i] == conds;
  }

  /** The debounce set is exactly the sensors the conditions read, each once,
      in the order they are first read. */
  lemma DebouncedSensorsSpec(conds: seq<Condition>)
    ensures NoDup(DebouncedSensors(conds))
    ensures forall b :: b in DebouncedSensors(conds) <==> b in ReferencedSensors(conds)
    ensures forall c :: c in conds && ReadsSensor(c) ==> c.brick.target in DebouncedSensors(conds)
    ensures forall b :: b in DebouncedSensors(conds) ==> b.kind == Sensor
  {
    DedupNoDup(ReferencedSensors(conds));
    DedupMembers(ReferencedSensors(conds));
  }

  // ------------------------------------------------------------ condition joining

  /** The text placed before condition `i + 1`, ` ${operator} `: `&&` when
      the `i`-th DSL operator is `and`, `||` otherwise (also when it is
      missing). */
  function OpAt(ops: seq<string>, i: int): string
  {
    if 0 <= i < |ops| && ops[i] == "and" then " && " else " || "
  }

  /** The condition code built left to right. A `None` piece is a condition
      the loop skips; a skipped first condition leaves the following
      operator at the front, as the loop tests the index and not what was
      emitted. */
  function JoinConds(pieces: seq<Option<string>>, ops: seq<string>): string
  {
    if pieces == [] then ""
    else
      var code := JoinConds(pieces[..|pieces| - 1], ops);
      var last := pieces[|pieces| - 1];
      if last.None? then code
      else if |pieces| == 1 then last.value
      else code + OpAt(ops, |pieces| - 2) + last.value
  }

  /** One more present piece: the first is the text alone, any later one
      comes after its operator. */
  lemma JoinCondsStep(pieces: seq<Option<string>>, ops: seq<string>, i: nat, s: string)
    requires i < |pieces| && pieces[i] == Some(s)
    ensures JoinConds(pieces[..i + 1], ops)
      == if i == 0 then s else JoinConds(pieces[..i], ops) + OpAt(ops, i - 1) + s
  {
    assert pieces[..i + 1][..i] == pieces[..i];
  }

  predicate AllPresent(pieces: seq<Option<string>>)
  {
    forall i :: 0 <= i < |pieces| ==> pieces[i].Some?
  }

  function Values(pieces: seq<Option<string>>): seq<string>
    requires AllPresent(pieces)
  {
    seq(|pieces|, i requires 0 <= i < |pieces| => pieces[i].value)
  }

  /** When no condition is skipped and every operator slot reads the same
      C operator, the condition code is the conditions joined by it, with
      no inner parentheses. */
  lemma {:induction false} JoinCondsUniform(pieces: seq<Option<string>>, ops: seq<string>, sep: string)
    requires AllPresent(pieces)
    requires forall i :: 0 <= i < |pieces| - 1 ==> OpAt(ops, i) == sep
    ensures JoinConds(pieces, ops) == Join(Values(pieces), sep)
  {
    if |pieces| > 1 {
      var p := pieces[..|pieces| - 1];
      JoinCondsUniform(p, ops, sep);
      assert Values(pieces) == Values(p) + [pieces[|pieces| - 1].value];
      JoinSnoc(Values(p), pieces[|pieces| - 1].value, sep);
    }
  }

  /** All-`and` guards join with `&&`. */
  lemma AllAndJoin(pieces: seq<Option<string>>, ops: seq<string>)
    requires AllPresent(pieces) && |ops| >= |pieces| - 1
    requires forall i :: 0 <= i < |ops| ==> ops[i] == "and"
    ensures JoinConds(pieces, ops) == Join(Values(pieces), " && ")
  {
    forall i | 0 <= i < |pieces| - 1
      ensures OpAt(ops, i) == " && "
    {
      assert ops[i] == "and";
    }
    JoinCondsUniform(pieces, ops, " && ");
  }

  /** A guard with no `and` among its operators joins with `||`. */
  lemma NoAndJoin(pieces: seq<Option<string>>, ops: seq<string>)
    requires AllPresent(pieces)
    requires forall i :: 0 <= i < |ops| ==> ops[i] != "and"
    ensures JoinConds(pieces, ops) == Join(Values(pieces), " || ")
  {
    forall i | 0 <= i < |pieces| - 1
      ensures OpAt(ops, i) == " || "
    {
    }
    JoinCondsUniform(pieces, ops, " || ");
  }

  /** A skipped first condition leaves a dangling operator at the front. */
  lemma SkippedFirstCondition(x: string, ops: seq<string>)
    ensures JoinConds([None, Some(x)], ops) == OpAt(ops, 0) + x
  {
    var one: seq<Option<string>> := [None];
    assert [None, Some(x)][..1] == one;
    assert one[..0] == [];
    assert JoinConds(one, ops) == "";
  }

  /** Skipped conditions contribute no text: with everything skipped the
      code is empty. */
  lemma {:induction false} AllSkipped(pieces: seq<Option<string>>, ops: seq<string>)
    requires forall i :: 0 <= i < |pieces| ==> pieces[i].None?
    ensures JoinConds(pieces, ops) == ""
  {
    if pieces != [] {
      AllSkipped(pieces[..|pieces| - 1], ops);
    }
  }

  /** Later conditions only append: the code of the first `n` pieces is a
      prefix of the code of all of them. */
  lemma {:induction false} JoinCondsExtends(pieces: seq<Option<string>>, ops: seq<string>, n: nat)
    requires n <= |pieces|
    ensures JoinConds(pieces[..n], ops) <= JoinConds(pieces, ops)
    decreases |pieces| - n
  {
    if n == |pieces| {
      assert pieces[..n] == pieces;
    } else {
      var init := pieces[..|pieces| - 1];
      JoinCondsExtends(init, ops, n);
      assert init[..n] == pieces[..n];
      var code := JoinConds(init, ops);
      var small := JoinConds(pieces[..n], ops);
      assert small <= code;
      assert code <= JoinConds(pieces, ops);
      assert JoinConds(pieces, ops)[..|small|] == code[..|small|];
    }
  }

  /** Every condition the loop does not skip has its text in the code. */
  lemma JoinCondsMentions(pieces: seq<Option<string>>, ops: seq<string>, k: nat)
    requires k < |pieces| && pieces[k].Some?
    ensures Contains(JoinConds(pieces, ops), pieces[k].value)
  {
    var v := pieces[k].value;
    JoinCondsStep(pieces, ops, k, v);
    JoinCondsExtends(pieces, ops, k + 1);
    var upto := JoinConds(pieces[..k + 1], ops);
    var code := JoinConds(pieces, ops);
    var at := |upto| - |v|;
    assert upto[at..] == v;
    assert code[at..at + |v|] == upto[at..];
    assert ContainsAt(code, v, at);
  }

  /** When the first condition is not skipped the code starts with its
      text, not with an operator. */
  lemma JoinCondsStartsWithFirst(pieces: seq<Option<string>>, ops: seq<string>)
    requires |pieces| >= 1 && pieces[0].Some?
    ensures pieces[0].value <= JoinConds(pieces, ops)
  {
    JoinCondsStep(pieces, ops, 0, pieces[0].value);
    JoinCondsExtends(pieces, ops, 1);
  }

  // ------------------------------------------------------------ debounce conjunct

  function DebounceClause(b: Brick): string
  {
    "millis() - " + b.name + "LastDebounceTime > debounce"
  }

  function DebounceClauses(sensors: seq<Brick>): seq<string>
  {
    seq(|sensors|, i requires 0 <= i < |sensors| => DebounceClause(sensors[i]))
  }

  /** The debounce conjunct appended to the guard: nothing without sensors,
      otherwise all sensors' clauses joined by `&&` in parentheses. */
  function Debounce(sensors: seq<Brick>): (r: string)
    ensures r == "" <==> sensors == []
  {
    if sensors == [] then "" else " && (" + Join(DebounceClauses(sensors), " && ") + ")"
  }

  /** The clauses keep the order of the sensors. */
  lemma DebounceClausesInOrder(sensors: seq<Brick>, i: nat, j: nat)
    requires i < j < |sensors|
    ensures OccursBefore(Debounce(sensors), DebounceClause(sensors[i]), DebounceClause(sensors[j]))
  {
    var parts := DebounceClauses(sensors);
    JoinKeepsOrder(parts, " && ", i, j);
    OccursBeforeInside(" && (", Join(parts, " && "), ")", parts[i], parts[j]);
  }

  /** Every sensor's clause occurs in the conjunct. */
  lemma {:induction false} DebounceMentionsEvery(sensors: seq<Brick>, k: nat)
    requires k < |sensors|
    ensures Contains(Debounce(sensors), DebounceClause(sensors[k]))
  {
    var parts := DebounceClauses(sensors);
    var w := JoinPartAt(parts, " && ", k);
    var d := Debounce(sensors);
    var at: nat := |" && ("| + w;
    assert d[at..at + |parts[k]|] == Join(parts, " && ")[w..w + |parts[k]|];
    assert ContainsAt(d, DebounceClause(sensors[k]), at);
  }
}
