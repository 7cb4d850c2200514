/** The pin allocator of the Langium generator: three pools of free pin
    numbers (digital, PWM, analog input), a manual pass that records the
    pins bricks declare and strips them from every pool, and an automatic
    pass that, in declaration order, gives every other brick the head of
    the pool its kind calls for. */
module Pins {
  import opened Common
  import opened Ast

  const DIGITAL_PINS: seq<int> := [8, 9, 10, 11, 12]
  const PWM_PINS: seq<int> := [1, 2, 3, 4]
  const ANALOG_INPUT_PINS: seq<int> := [1, 2, 3, 4, 5]
  const LCD_RESERVED_PINS: seq<int> := [2, 3, 4, 5, 11, 12]

  const SUMMARY_HEADER: string := "// Pin Allocation Summary:"

  datatype Pool = DigitalPool | PwmPool | AnalogPool

  /** The pin a brick declares itself; `outputPin` wins over `inputPin`. */
  function DeclaredPin(b: Brick): Option<int>
  {
    if b.outputPin.Set? then Some(b.outputPin.value)
    else if b.inputPin.Set? then Some(b.inputPin.value)
    else None
  }

  /** The pool an undeclared brick draws from; `None` for kinds other than
      `Actuator` and `Sensor`, which get no pin. */
  function PoolFor(b: Brick): Option<Pool>
  {
    match b.kind
    case Actuator => if b.actuatorType == Set("analog") then Some(PwmPool) else Some(DigitalPool)
    case Sensor => if b.sensorType == Set("analog") then Some(AnalogPool) else Some(DigitalPool)
    case _ => None
  }

  /** `pool.filter(p => p !== pin)`. */
  function Without(s: seq<int>, pin: int): (r: seq<int>)
    ensures forall x :: x in r <==> x in s && x != pin
  {
    if s == [] then [] else (if s[0] == pin then [] else [s[0]]) + Without(s[1..], pin)
  }

  lemma {:induction false} WithoutNoDup(s: seq<int>, pin: int)
    requires NoDup(s)
    ensures NoDup(Without(s, pin))
  {
    if s != [] {
      assert s[0] !in s[1..];
      WithoutNoDup(s[1..], pin);
    }
  }

  /** `pool.filter(pin => !reserved.includes(pin))`. */
  function Exclude(s: seq<int>, reserved: seq<int>): seq<int>
  {
    if s == [] then [] else (if s[0] in reserved then [] else [s[0]]) + Exclude(s[1..], reserved)
  }

  // ------------------------------------------------------------ allocator state

  /** The allocator's fields as one value. `order` is the insertion order of
      `allocations`, the order a JavaScript `Map` iterates in. */
  datatype AllocState = AllocState(
    digital: seq<int>,
    pwm: seq<int>,
    analog: seq<int>,
    allocations: map<Brick, int>,
    order: seq<Brick>)

  ghost predicate Consistent(st: AllocState)
  {
    && NoDup(st.order)
    && (forall b :: b in st.allocations <==> b in st.order)
  }

  function PoolOf(st: AllocState, p: Pool): seq<int>
  {
    match p
    case DigitalPool => st.digital
    case PwmPool => st.pwm
    case AnalogPool => st.analog
  }

  function WithPool(st: AllocState, p: Pool, s: seq<int>): AllocState
  {
    match p
    case DigitalPool => st.(digital := s)
    case PwmPool => st.(pwm := s)
    case AnalogPool => st.(analog := s)
  }

  /** A fresh allocator. */
  function Init(hasLCD: bool): AllocState
  {
    if hasLCD then
      AllocState(Exclude(DIGITAL_PINS, LCD_RESERVED_PINS), Exclude(PWM_PINS, LCD_RESERVED_PINS),
                 ANALOG_INPUT_PINS, map[], [])
    else
      AllocState(DIGITAL_PINS, PWM_PINS, ANALOG_INPUT_PINS, map[], [])
  }

  /** `allocations.set(b, pin)`: a new key goes to the end of the order, an
      existing key keeps its place. */
  function Record(st: AllocState, b: Brick, pin: int): AllocState
  {
    st.(allocations := st.allocations[b := pin],
        order := if b in st.allocations then st.order else st.order + [b])
  }

  /** `markPinAsUsed(pin)`: the pin leaves all three pools. */
  function MarkUsed(st: AllocState, pin: int): AllocState
  {
    st.(digital := Without(st.digital, pin), pwm := Without(st.pwm, pin), analog := Without(st.analog, pin))
  }

  /** `allocateFromPool(pool)`: the head of the pool, removed from it, or -1
      with the pool unchanged when it is empty. */
  function Draw(st: AllocState, p: Pool): (int, AllocState)
  {
    var s := PoolOf(st, p);
    if s == [] then (-1, st) else (s[0], WithPool(st, p, s[1..]))
  }

  /** `allocatePin(brick)`. */
  function AutoPin(st: AllocState, b: Brick): (int, AllocState)
  {
    if PoolFor(b).Some? then Draw(st, PoolFor(b).value) else (-1, st)
  }

  /** One iteration of the manual pass. */
  function ManualStep(st: AllocState, b: Brick): AllocState
  {
    if DeclaredPin(b).Some? then MarkUsed(Record(st, b, DeclaredPin(b).value), DeclaredPin(b).value)
    else st
  }

  /** The manual pass over the bricks, in order. */
  function ManualPass(st: AllocState, bs: seq<Brick>): AllocState
  {
    if bs == [] then st else ManualStep(ManualPass(st, bs[..|bs| - 1]), bs[|bs| - 1])
  }

  /** The state the automatic pass reached and the brick it stopped at, if any. */
  datatype AutoOutcome = AutoOutcome(st: AllocState, failed: Option<Brick>)

  /** One iteration of the automatic pass. */
  function AutoStep(st: AllocState, b: Brick): AutoOutcome
  {
    if b in st.allocations then AutoOutcome(st, None)
    else
      var (pin, st') := AutoPin(st, b);
      if pin == -1 then AutoOutcome(st', Some(b)) else AutoOutcome(Record(st', b, pin), None)
  }

  /** The automatic pass, which stops at the first brick it cannot serve. */
  function AutoPass(st: AllocState, bs: seq<Brick>): AutoOutcome
  {
    if bs == [] then AutoOutcome(st, None)
    else
      var o := AutoPass(st, bs[..|bs| - 1]);
      if o.failed.Some? then o else AutoStep(o.st, bs[|bs| - 1])
  }

  /** `allocatePins(bricks)`: the manual pass, then the automatic pass. */
  function AllocatePinsSpec(st: AllocState, bs: seq<Brick>): AutoOutcome
  {
    AutoPass(ManualPass(st, bs), bs)
  }

  function AllocationError(b: Brick): string
  {
    "Unable to allocate pin for brick: " + b.name
  }

  /** `getPin(brick)`: `allocations.get(brick) || -1`, so an unrecorded brick
      and a brick recorded with pin 0 both read as -1. */
  function PinOf(allocations: map<Brick, int>, b: Brick): int
  {
    if b in allocations && allocations[b] != 0 then allocations[b] else -1
  }

  // ------------------------------------------------------------ summary text

  function PinName(pin: int): string
  {
    if pin >= 14 then "A" + IntToString(pin - 14) else "D" + IntToString(pin)
  }

  function TypeInfo(b: Brick): string
  {
    if b.actuatorType.Set? && b.actuatorType.value != "" then ", " + b.actuatorType.value
    else if b.sensorType.Set? && b.sensorType.value != "" then ", " + b.sensorType.value
    else ""
  }

  function EntryLine(b: Brick, pin: int): string
  {
    "//   " + b.name + " (" + (if b.kind == Actuator then "Actuator" else "Sensor") + TypeInfo(b)
    + "): Pin " + PinName(pin) + " (" + IntToString(pin) + ")"
  }

  function SummaryLines(allocations: map<Brick, int>, order: seq<Brick>): seq<string>
    requires forall b :: b in order ==> b in allocations
  {
    if order == [] then []
    else
      var last := order[|order| - 1];
      SummaryLines(allocations, order[..|order| - 1]) + [EntryLine(last, allocations[last])]
  }

  /** One more brick of the order gives one more line at the end. */
  lemma SummaryLinesSnoc(allocations: map<Brick, int>, order: seq<Brick>, i: nat)
    requires forall b :: b in order ==> b in allocations
    requires i < |order|
    ensures SummaryLines(allocations, order[..i + 1])
      == SummaryLines(allocations, order[..i]) + [EntryLine(order[i], allocations[order[i]])]
  {
    assert order[..i + 1][..i] == order[..i];
  }

  lemma SummaryStep(allocations: map<Brick, int>, order: seq<Brick>, i: nat, lines: seq<string>)
    requires forall b :: b in order ==> b in allocations
    requires i < |order| && lines == [SUMMARY_HEADER] + SummaryLines(allocations, order[..i])
    ensures lines + [EntryLine(order[i], allocations[order[i]])] == [SUMMARY_HEADER] + SummaryLines(allocations, order[..i + 1])
  {
    SummaryLinesSnoc(allocations, order, i);
  }

  // ------------------------------------------------------------ the class

  class PinAllocator {
    var digital: seq<int>
    var pwm: seq<int>
    var analog: seq<int>
    var allocations: map<Brick, int>
    var order: seq<Brick>

    function State(): AllocState
      reads this
    {
      AllocState(digital, pwm, analog, allocations, order)
    }

    ghost predicate Valid()
      reads this
    {
      Consistent(State())
    }

    constructor(hasLCD: bool)
      ensures Valid() && State() == Init(hasLCD)
      ensures hasLCD ==> digital == [8, 9, 10] && pwm == [1]
      ensures !hasLCD ==> digital == DIGITAL_PINS && pwm == PWM_PINS
      ensures analog == ANALOG_INPUT_PINS && allocations == map[] && order == []
    {
      allocations := map[];
      order := [];
      if hasLCD {
        LcdDigitalPool();
        LcdPwmPool();
        digital := Exclude(DIGITAL_PINS, LCD_RESERVED_PINS);
        pwm := Exclude(PWM_PINS, LCD_RESERVED_PINS);
      } else {
        digital := DIGITAL_PINS;
        pwm := PWM_PINS;
      }
      analog := ANALOG_INPUT_PINS;
    }

    /** `allocateFromPool(pool)`. */
    method AllocateFromPool(p: Pool) returns (pin: int)
      modifies this
      ensures (pin, State()) == Draw(old(State()), p)
      ensures old(PoolOf(State(), p)) == [] ==> pin == -1 && State() == old(State())
      ensures old(PoolOf(State(), p)) != [] ==>
                pin == old(PoolOf(State(), p))[0] && PoolOf(State(), p) == old(PoolOf(State(), p))[1..]
    {
      var s := PoolOf(State(), p);
      if s == [] {
        pin := -1;
        return;
      }
      pin := s[0];
      match p
      case DigitalPool => digital := s[1..];
      case PwmPool => pwm := s[1..];
      case AnalogPool => analog := s[1..];
    }

    /** `allocatePin(brick)`: the pool is chosen by the brick's kind. */
    method AllocatePin(b: Brick) returns (pin: int)
      modifies this
      ensures (pin, State()) == AutoPin(old(State()), b)
      ensures PoolFor(b).None? ==> pin == -1 && State() == old(State())
    {
      if b.kind == Actuator {
        if b.actuatorType == Set("analog") {
          pin := AllocateFromPool(PwmPool);
        } else {
          pin := AllocateFromPool(DigitalPool);
        }
      } else if b.kind == Sensor {
        if b.sensorType == Set("analog") {
          pin := AllocateFromPool(AnalogPool);
        } else {
          pin := AllocateFromPool(DigitalPool);
        }
      } else {
        pin := -1;
      }
    }

    /** `markPinAsUsed(pin)`. */
    method MarkPinAsUsed(pin: int)
      modifies this
      ensures State() == MarkUsed(old(State()), pin)
      ensures pin !in digital && pin !in pwm && pin !in analog
    {
      digital := Without(digital, pin);
      pwm := Without(pwm, pin);
      analog := Without(analog, pin);
    }

    /** `allocations.set(b, pin)`. */
    method Put(b: Brick, pin: int)
      requires Valid()
      modifies this
      ensures Valid() && State() == Record(old(State()), b, pin)
    {
      if b !in allocations {
        order := order + [b];
      }
      allocations := allocations[b := pin];
    }

    /** One iteration of the manual loop of `allocatePins`: a declared pin is
        recorded and withdrawn from every pool. */
    method ManualAllocate(b: Brick)
      requires Valid()
      modifies this
      ensures Valid() && State() == ManualStep(old(State()), b)
    {
      if b.outputPin.Set? {
        Put(b, b.outputPin.value);
        MarkPinAsUsed(b.outputPin.value);
      } else if b.inputPin.Set? {
        Put(b, b.inputPin.value);
        MarkPinAsUsed(b.inputPin.value);
      }
    }

    /** One iteration of the automatic loop of `allocatePins`; `failed` is
        the case in which the source throws. */
    method AutoAllocate(b: Brick) returns (failed: bool)
      requires Valid()
      modifies this
      ensures Valid()
      ensures AutoStep(old(State()), b) == AutoOutcome(State(), if failed then Some(b) else None)
    {
      failed := false;
      if b !in allocations {
        var pin := AllocatePin(b);
        if pin == -1 {
          failed := true;
          return;
        }
        Put(b, pin);
      }
    }

    /** `allocatePins(bricks)`: returns the allocation map, or the error the
        source throws for the first brick whose pool is empty. */
    method AllocatePins(bricks: seq<Brick>) returns (r: Result<map<Brick, int>, string>)
      requires Valid()
      modifies this
      ensures Valid()
      ensures State() == AllocatePinsSpec(old(State()), bricks).st
      ensures r.Ok? <==> AllocatePinsSpec(old(State()), bricks).failed.None?
      ensures r.Ok? ==> r.value == allocations
      ensures r.Err? ==> r.error == AllocationError(AllocatePinsSpec(old(State()), bricks).failed.value)
    {
      ghost var st0 := State();
      var i := 0;
      while i < |bricks|
        invariant 0 <= i <= |bricks|
        invariant Valid()
        invariant State() == ManualPass(st0, bricks[..i])
      {
        assert bricks[..i + 1][..i] == bricks[..i];
        ManualAllocate(bricks[i]);
        i := i + 1;
      }
      assert bricks[..i] == bricks;
      ghost var m := State();
      i := 0;
      while i < |bricks|
        invariant 0 <= i <= |bricks|
        invariant Valid()
        invariant AutoPass(m, bricks[..i]) == AutoOutcome(State(), None)
      {
        assert bricks[..i + 1][..i] == bricks[..i];
        var b := bricks[i];
        var failed := AutoAllocate(b);
        if failed {
          AutoPassStopped(m, bricks, i + 1);
          return Err(AllocationError(b));
        }
        i := i + 1;
      }
      assert bricks[..i] == bricks;
      return Ok(allocations);
    }

    /** `getPin(brick)`. */
    function GetPin(b: Brick): (pin: int)
      reads this
      ensures b !in allocations ==> pin == -1
      ensures b in allocations && allocations[b] != 0 ==> pin == allocations[b]
      ensures b in allocations && allocations[b] == 0 ==> pin == -1
    {
      PinOf(allocations, b)
    }

    /** `getAllocationSummary()`: a header line, then one line per recorded
        brick in insertion order, joined by line breaks. */
    method GetAllocationSummary() returns (s: string)
      requires Valid()
      ensures s == Join([SUMMARY_HEADER] + SummaryLines(allocations, order), "\n")
    {
      assert forall c :: c in order ==> c in allocations;
      var lines := [SUMMARY_HEADER];
      var i := 0;
      while i < |order|
        invariant 0 <= i <= |order|
        invariant lines == [SUMMARY_HEADER] + SummaryLines(allocations, order[..i])
      {
        var b := order[i];
        SummaryStep(allocations, order, i, lines);
        lines := lines + [EntryLine(b, allocations[b])];
        i := i + 1;
      }
      assert order[..i] == order;
      s := Join(lines, "\n");
    }
  }

  // ------------------------------------------------------------ proofs

  /** With an LCD the digital pool keeps 8, 9 and 10. */
  lemma LcdDigitalPool()
    ensures Exclude(DIGITAL_PINS, LCD_RESERVED_PINS) == [8, 9, 10]
  {
    var r := [2, 3, 4, 5, 11, 12];
    assert r == LCD_RESERVED_PINS;
    ExcludeCons(12, [], r);
    ExcludeCons(11, [12], r);
    ExcludeCons(10, [11, 12], r);
    ExcludeCons(9, [10, 11, 12], r);
    ExcludeCons(8, [9, 10, 11, 12], r);
  }

  /** With an LCD the PWM pool keeps only pin 1. */
  lemma LcdPwmPool()
    ensures Exclude(PWM_PINS, LCD_RESERVED_PINS) == [1]
  {
    var r := [2, 3, 4, 5, 11, 12];
    assert r == LCD_RESERVED_PINS;
    ExcludeCons(4, [], r);
    ExcludeCons(3, [4], r);
    ExcludeCons(2, [3, 4], r);
    ExcludeCons(1, [2, 3, 4], r);
  }

  lemma ExcludeCons(x: int, s: seq<int>, reserved: seq<int>)
    ensures Exclude([x] + s, reserved) == (if x in reserved then [] else [x]) + Exclude(s, reserved)
  {
    assert ([x] + s)[1..] == s;
  }

  /** Once the automatic pass has stopped, later bricks change nothing. */
  lemma {:induction false} AutoPassStopped(st: AllocState, bs: seq<Brick>, k: nat)
    requires k <= |bs| && AutoPass(st, bs[..k]).failed.Some?
    ensures AutoPass(st, bs) == AutoPass(st, bs[..k])
    decreases |bs| - k
  {
    if k < |bs| {
      assert bs[..k + 1][..k] == bs[..k];
      AutoPassStopped(st, bs, k + 1);
    } else {
      assert bs[..k] == bs;
    }
  }

  // ------------------------------------------------------------ the manual pass

  ghost predicate PoolsNoDup(st: AllocState)
  {
    NoDup(st.digital) && NoDup(st.pwm) && NoDup(st.analog)
  }

  /** Every pool of `later` is drawn from the same pool of `earlier`. */
  ghost predicate PoolsWithin(later: AllocState, earlier: AllocState)
  {
    forall p: Pool, x :: x in PoolOf(later, p) ==> x in PoolOf(earlier, p)
  }

  /** `x` is still offered by some pool. */
  predicate Free(st: AllocState, x: int)
  {
    x in st.digital || x in st.pwm || x in st.analog
  }

  lemma RecordConsistent(st: AllocState, b: Brick, pin: int)
    requires Consistent(st)
    ensures Consistent(Record(st, b, pin))
  {
    if b !in st.allocations {
      assert b !in st.order;
    }
  }

  lemma InitFacts(hasLCD: bool)
    ensures Consistent(Init(hasLCD)) && PoolsNoDup(Init(hasLCD))
    ensures Init(hasLCD).allocations == map[] && Init(hasLCD).order == []
  {
    if hasLCD {
      LcdDigitalPool();
      LcdPwmPool();
    }
  }

  /** After the manual pass from an empty allocator, exactly the bricks that
      declare a pin are recorded, each with its declared pin, and no recorded
      pin is left in any pool. */
  lemma {:induction false} ManualPassFacts(st0: AllocState, bs: seq<Brick>)
    requires st0.allocations == map[] && st0.order == [] && PoolsNoDup(st0)
    ensures Consistent(ManualPass(st0, bs)) && PoolsNoDup(ManualPass(st0, bs))
    ensures PoolsWithin(ManualPass(st0, bs), st0)
    ensures forall b :: b in ManualPass(st0, bs).allocations <==> b in bs && DeclaredPin(b).Some?
    ensures forall b :: b in ManualPass(st0, bs).allocations ==>
              ManualPass(st0, bs).allocations[b] == DeclaredPin(b).value
              && !Free(ManualPass(st0, bs), ManualPass(st0, bs).allocations[b])
  {
    if bs != [] {
      var prefix := bs[..|bs| - 1];
      var b := bs[|bs| - 1];
      ManualPassFacts(st0, prefix);
      var m := ManualPass(st0, prefix);
      assert bs == prefix + [b];
      if DeclaredPin(b).Some? {
        var q := DeclaredPin(b).value;
        RecordConsistent(m, b, q);
        var r := Record(m, b, q);
        WithoutNoDup(r.digital, q);
        WithoutNoDup(r.pwm, q);
        WithoutNoDup(r.analog, q);
        var m' := MarkUsed(r, q);
        assert m' == ManualPass(st0, bs);
        forall p: Pool, x | x in PoolOf(m', p)
          ensures x in PoolOf(st0, p)
        {
          assert x in PoolOf(m, p);
        }
      }
    }
  }

  // ------------------------------------------------------------ the automatic pass

  /** Entries the manual pass made keep their pins. */
  ghost predicate KeepsManual(m: AllocState, st: AllocState)
  {
    forall b :: b in m.allocations ==> b in st.allocations && st.allocations[b] == m.allocations[b]
  }

  /** A pin handed out by the automatic pass came from its brick's pool as
      the manual pass left it, and that pool no longer offers it. */
  ghost predicate DrawnFromPool(m: AllocState, st: AllocState)
  {
    forall b :: b in st.allocations && b !in m.allocations ==>
      && PoolFor(b).Some?
      && st.allocations[b] in PoolOf(m, PoolFor(b).value)
      && st.allocations[b] !in PoolOf(st, PoolFor(b).value)
  }

  /** Pins handed out from the same pool are distinct. */
  ghost predicate DistinctPerPool(m: AllocState, st: AllocState)
  {
    forall b1, b2 ::
      (b1 in st.allocations && b2 in st.allocations && b1 !in m.allocations && b2 !in m.allocations
       && b1 != b2 && PoolFor(b1) == PoolFor(b2)) ==> st.allocations[b1] != st.allocations[b2]
  }

  /** What the automatic pass keeps true, relative to the state `m` the
      manual pass left. */
  ghost predicate AutoInv(m: AllocState, st: AllocState)
  {
    && Consistent(st) && PoolsNoDup(st) && PoolsWithin(st, m)
    && KeepsManual(m, st) && DrawnFromPool(m, st) && DistinctPerPool(m, st)
  }

  /** The state after the automatic pass gives `b` the head of `pool`. */
  function Grant(st: AllocState, b: Brick, pool: Pool): AllocState
    requires PoolOf(st, pool) != []
  {
    Record(WithPool(st, pool, PoolOf(st, pool)[1..]), b, PoolOf(st, pool)[0])
  }

  lemma AutoStepIsGrant(st: AllocState, b: Brick)
    requires b !in st.allocations && AutoStep(st, b).failed.None?
    ensures PoolFor(b).Some? && PoolOf(st, PoolFor(b).value) != []
    ensures AutoStep(st, b).st == Grant(st, b, PoolFor(b).value)
  {
  }

  lemma GrantPools(m: AllocState, st: AllocState, b: Brick, pool: Pool)
    requires PoolsNoDup(st) && PoolsWithin(st, m) && PoolOf(st, pool) != []
    ensures PoolsNoDup(Grant(st, b, pool)) && PoolsWithin(Grant(st, b, pool), m)
    ensures PoolOf(st, pool)[0] !in PoolOf(Grant(st, b, pool), pool)
    ensures forall p :: p != pool ==> PoolOf(Grant(st, b, pool), p) == PoolOf(st, p)
    ensures forall p: Pool, x :: x in PoolOf(Grant(st, b, pool), p) ==> x in PoolOf(st, p)
  {
    var s := PoolOf(st, pool);
    assert s[0] !in s[1..];
    var g := Grant(st, b, pool);
    forall p: Pool, x | x in PoolOf(g, p)
      ensures x in PoolOf(st, p)
    {
    }
  }

  lemma GrantDrawn(m: AllocState, st: AllocState, b: Brick, pool: Pool)
    requires PoolsNoDup(st) && PoolsWithin(st, m) && DrawnFromPool(m, st)
    requires b !in st.allocations && PoolFor(b) == Some(pool) && PoolOf(st, pool) != []
    ensures DrawnFromPool(m, Grant(st, b, pool))
  {
    GrantPools(m, st, b, pool);
    var g := Grant(st, b, pool);
    forall c | c in g.allocations && c !in m.allocations
      ensures PoolFor(c).Some? && g.allocations[c] in PoolOf(m, PoolFor(c).value)
      ensures g.allocations[c] !in PoolOf(g, PoolFor(c).value)
    {
      if c != b {
        assert g.allocations[c] !in PoolOf(st, PoolFor(c).value);
      }
    }
  }

  lemma GrantDistinct(m: AllocState, st: AllocState, b: Brick, pool: Pool)
    requires PoolsNoDup(st) && PoolsWithin(st, m) && DrawnFromPool(m, st) && DistinctPerPool(m, st)
    requires b !in st.allocations && PoolFor(b) == Some(pool) && PoolOf(st, pool) != []
    ensures DistinctPerPool(m, Grant(st, b, pool))
  {
    var g := Grant(st, b, pool);
    var s := PoolOf(st, pool);
    forall b1, b2 | b1 in g.allocations && b2 in g.allocations && b1 !in m.allocations
        && b2 !in m.allocations && b1 != b2 && PoolFor(b1) == PoolFor(b2)
      ensures g.allocations[b1] != g.allocations[b2]
    {
      if b1 == b {
        assert g.allocations[b2] !in s;
      } else if b2 == b {
        assert g.allocations[b1] !in s;
      }
    }
  }

  lemma AutoStepNew(m: AllocState, st: AllocState, b: Brick)
    requires AutoInv(m, st) && b !in st.allocations && AutoStep(st, b).failed.None?
    ensures AutoInv(m, AutoStep(st, b).st)
  {
    AutoStepIsGrant(st, b);
    var pool := PoolFor(b).value;
    var s := PoolOf(st, pool);
    RecordConsistent(WithPool(st, pool, s[1..]), b, s[0]);
    GrantPools(m, st, b, pool);
    GrantDrawn(m, st, b, pool);
    GrantDistinct(m, st, b, pool);
  }

  lemma AutoStepInv(m: AllocState, st: AllocState, b: Brick)
    requires AutoInv(m, st) && AutoStep(st, b).failed.None?
    ensures AutoInv(m, AutoStep(st, b).st)
    ensures b in AutoStep(st, b).st.allocations
    ensures forall c :: c in AutoStep(st, b).st.allocations ==> c in st.allocations || c == b
  {
    if b !in st.allocations {
      AutoStepNew(m, st, b);
    }
  }

  /** The invariant over a prefix of the bricks, while the pass has not
      stopped: every brick seen so far has a pin, and nothing else does. */
  lemma AutoPassInv(m: AllocState, bs: seq<Brick>)
    requires Consistent(m) && PoolsNoDup(m) && AutoPass(m, bs).failed.None?
    ensures AutoInv(m, AutoPass(m, bs).st)
    ensures forall b :: b in bs ==> b in AutoPass(m, bs).st.allocations
    ensures forall b :: b in AutoPass(m, bs).st.allocations ==> b in m.allocations || b in bs
  {
    AutoPassKeeps(m, bs);
    AutoPassCovers(m, bs);
    AutoPassKeys(m, bs);
  }

  lemma {:induction false} AutoPassKeeps(m: AllocState, bs: seq<Brick>)
    requires Consistent(m) && PoolsNoDup(m) && AutoPass(m, bs).failed.None?
    ensures AutoInv(m, AutoPass(m, bs).st)
  {
    if bs != [] {
      var prefix := bs[..|bs| - 1];
      var b := bs[|bs| - 1];
      var o := AutoPass(m, prefix);
      assert o.failed.None?;
      assert AutoPass(m, bs) == AutoStep(o.st, b);
      AutoPassKeeps(m, prefix);
      AutoStepInv(m, o.st, b);
    }
  }

  /** One automatic step that does not stop gives `b` a pin and keeps the
      other keys. */
  lemma AutoStepKeys(st: AllocState, b: Brick)
    requires AutoStep(st, b).failed.None?
    ensures b in AutoStep(st, b).st.allocations
    ensures forall c :: c in AutoStep(st, b).st.allocations <==> c in st.allocations || c == b
  {
  }

  /** Every brick the automatic pass went through without stopping holds
      a pin. */
  lemma {:induction false} AutoPassCovers(m: AllocState, bs: seq<Brick>)
    requires AutoPass(m, bs).failed.None?
    ensures forall b :: b in bs ==> b in AutoPass(m, bs).st.allocations
  {
    if bs != [] {
      var prefix := bs[..|bs| - 1];
      var b := bs[|bs| - 1];
      assert bs == prefix + [b];
      var o := AutoPass(m, prefix);
      assert o.failed.None?;
      assert AutoPass(m, bs) == AutoStep(o.st, b);
      AutoPassCovers(m, prefix);
      AutoStepKeys(o.st, b);
    }
  }

  /** From a fresh allocator, when `allocatePins` returns:
      - every brick holds a pin;
      - a brick that declares a pin holds that pin;
      - no brick without a declared pin is given a pin some brick declares;
      - two bricks without declared pins drawing from the same pool get
        different pins;
      - the allocation's keys are exactly the bricks, each once in the
        insertion order. */
  lemma AllocatePinsSound(hasLCD: bool, bs: seq<Brick>)
    requires AllocatePinsSpec(Init(hasLCD), bs).failed.None?
    ensures var a := AllocatePinsSpec(Init(hasLCD), bs).st;
      && (forall b :: b in a.allocations <==> b in bs)
      && (forall b :: b in a.order <==> b in bs)
      && NoDup(a.order)
      && (forall b :: b in bs && DeclaredPin(b).Some? ==> a.allocations[b] == DeclaredPin(b).value)
      && (forall b1, b2 :: b1 in bs && b2 in bs && DeclaredPin(b1).Some? && DeclaredPin(b2).None? ==>
            a.allocations[b1] != a.allocations[b2])
      && (forall b1, b2 ::
            (b1 in bs && b2 in bs && DeclaredPin(b1).None? && DeclaredPin(b2).None?
             && b1 != b2 && PoolFor(b1) == PoolFor(b2)) ==> a.allocations[b1] != a.allocations[b2])
  {
    InitFacts(hasLCD);
    var st0 := Init(hasLCD);
    ManualPassFacts(st0, bs);
    var m := ManualPass(st0, bs);
    AutoPassInv(m, bs);
    var a := AllocatePinsSpec(st0, bs).st;
    forall b1, b2 | b1 in bs && b2 in bs && DeclaredPin(b1).Some? && DeclaredPin(b2).None?
      ensures a.allocations[b1] != a.allocations[b2]
    {
      assert b2 !in m.allocations;
      var x := a.allocations[b2];
      assert x in PoolOf(m, PoolFor(b2).value);
      assert Free(m, x);
    }
  }

  /** The automatic pass stops at `bs[k]`: it had not stopped before,
      `bs[k]` holds no pin, `allocatePin` gives it -1, and the pass reports
      `bs[k]`. */
  ghost predicate StopsAt(st: AllocState, bs: seq<Brick>, k: int)
    requires 0 <= k < |bs|
  {
    var before := AutoPass(st, bs[..k]);
    && before.failed.None?
    && bs[k] !in before.st.allocations
    && AutoPin(before.st, bs[k]).0 == -1
    && AutoPass(st, bs).failed == Some(bs[k])
  }

  lemma {:induction false} AutoPassStops(st: AllocState, bs: seq<Brick>)
    requires AutoPass(st, bs).failed.Some?
    ensures exists k :: 0 <= k < |bs| && StopsAt(st, bs, k)
  {
    var prefix := bs[..|bs| - 1];
    var b := bs[|bs| - 1];
    if AutoPass(st, prefix).failed.Some? {
      AutoPassStops(st, prefix);
      var k :| 0 <= k < |prefix| && StopsAt(st, prefix, k);
      assert bs[..k] == prefix[..k];
      assert StopsAt(st, bs, k);
    } else {
      assert StopsAt(st, bs, |bs| - 1);
    }
  }

  /** Every pool offers only positive pin numbers. */
  ghost predicate PositivePools(st: AllocState)
  {
    forall p: Pool, x :: x in PoolOf(st, p) ==> x >= 1
  }

  /** With positive pools, `allocatePin` answers -1 exactly when the brick is
      neither an `Actuator` nor a `Sensor`, or its pool is empty. */
  lemma AutoPinFails(st: AllocState, b: Brick)
    requires PositivePools(st)
    ensures AutoPin(st, b).0 == -1 <==> PoolFor(b).None? || PoolOf(st, PoolFor(b).value) == []
  {
    if PoolFor(b).Some? && PoolOf(st, PoolFor(b).value) != [] {
      assert PoolOf(st, PoolFor(b).value)[0] in PoolOf(st, PoolFor(b).value);
    }
  }

  lemma InitPositive(hasLCD: bool)
    ensures PositivePools(Init(hasLCD))
  {
    var st := Init(hasLCD);
    if hasLCD {
      LcdDigitalPool();
      LcdPwmPool();
      assert st.digital == [8, 9, 10] && st.pwm == [1];
    } else {
      assert st.digital == [8, 9, 10, 11, 12] && st.pwm == [1, 2, 3, 4];
    }
    assert st.analog == [1, 2, 3, 4, 5];
    forall p: Pool, x | x in PoolOf(st, p)
      ensures x >= 1
    {
      match p
      case DigitalPool =>
      case PwmPool =>
      case AnalogPool =>
    }
  }

  /** The automatic pass stops at `bs[k]`, and for a reason the source names:
      every brick before it holds a pin, `bs[k]` holds none, and it is not an
      `Actuator` or `Sensor` or its pool has run dry. */
  ghost predicate FailsAt(st: AllocState, bs: seq<Brick>, k: int)
    requires 0 <= k < |bs|
  {
    var before := AutoPass(st, bs[..k]);
    && StopsAt(st, bs, k)
    && (forall b :: b in bs[..k] ==> b in before.st.allocations)
    && (PoolFor(bs[k]).None? || PoolOf(before.st, PoolFor(bs[k]).value) == [])
  }

  /** From a fresh allocator, when `allocatePins` throws, it throws for the
      first brick that cannot be served. */
  lemma AllocatePinsFailure(hasLCD: bool, bs: seq<Brick>)
    requires AllocatePinsSpec(Init(hasLCD), bs).failed.Some?
    ensures exists k :: 0 <= k < |bs| && FailsAt(ManualPass(Init(hasLCD), bs), bs, k)
  {
    InitFacts(hasLCD);
    InitPositive(hasLCD);
    var st0 := Init(hasLCD);
    ManualPassFacts(st0, bs);
    var m := ManualPass(st0, bs);
    AutoPassStops(m, bs);
    var k :| 0 <= k < |bs| && StopsAt(m, bs, k);
    AutoPassInv(m, bs[..k]);
    var before := AutoPass(m, bs[..k]);
    assert PositivePools(before.st) by {
      forall p: Pool, x | x in PoolOf(before.st, p)
        ensures x >= 1
      {
        assert x in PoolOf(m, p);
        assert x in PoolOf(st0, p);
      }
    }
    AutoPinFails(before.st, bs[k]);
    assert FailsAt(m, bs, k);
  }

  /** The PWM and analog pools overlap: from a fresh allocator without an
      LCD, an analog actuator and an analog sensor that declare no pin both
      get pin 1. */
  lemma AnalogPoolsOverlap(act: Brick, sen: Brick)
    requires act.kind == Actuator && act.actuatorType == Set("analog") && DeclaredPin(act).None?
    requires sen.kind == Sensor && sen.sensorType == Set("analog") && DeclaredPin(sen).None?
    ensures var a := AllocatePinsSpec(Init(false), [act, sen]);
      && a.failed.None?
      && act in a.st.allocations && a.st.allocations[act] == 1
      && sen in a.st.allocations && a.st.allocations[sen] == 1
  {
    var st0 := Init(false);
    assert [act, sen][..1] == [act];
    assert [act][..0] == [];
    assert ManualPass(st0, [act]) == st0;
    assert ManualPass(st0, [act, sen]) == st0;
    assert AutoPass(st0, [act]).st.allocations == map[act := 1];
  }

  /** From a fresh allocator, every brick that declares no pin is given a
      positive pin, so `getPin` never falls back to -1 for it. */
  lemma AutoPinsPositive(hasLCD: bool, bs: seq<Brick>)
    requires AllocatePinsSpec(Init(hasLCD), bs).failed.None?
    ensures var a := AllocatePinsSpec(Init(hasLCD), bs).st;
      forall b :: b in bs && DeclaredPin(b).None? ==> b in a.allocations && a.allocations[b] >= 1
  {
    InitFacts(hasLCD);
    InitPositive(hasLCD);
    var st0 := Init(hasLCD);
    ManualPassFacts(st0, bs);
    var m := ManualPass(st0, bs);
    AutoPassInv(m, bs);
    var a := AllocatePinsSpec(st0, bs).st;
    forall b | b in bs && DeclaredPin(b).None?
      ensures b in a.allocations && a.allocations[b] >= 1
    {
      assert b !in m.allocations;
      var x := a.allocations[b];
      assert x in PoolOf(m, PoolFor(b).value);
      assert PoolsWithin(m, st0);
      assert x in PoolOf(st0, PoolFor(b).value);
    }
  }

  /** The automatic pass gives pins only to bricks it was handed. */
  lemma {:induction false} AutoPassKeys(st: AllocState, bs: seq<Brick>)
    ensures forall c :: c in AutoPass(st, bs).st.allocations ==> c in st.allocations || c in bs
  {
    if bs != [] {
      var prefix := bs[..|bs| - 1];
      assert bs == prefix + [bs[|bs| - 1]];
      AutoPassKeys(st, prefix);
    }
  }

  /** A brick without a pool that holds no pin stops the automatic pass. */
  lemma {:induction false} AutoPassNoPool(st: AllocState, bs: seq<Brick>, b: Brick)
    requires b in bs && PoolFor(b).None? && b !in st.allocations
    ensures AutoPass(st, bs).failed.Some?
  {
    var prefix := bs[..|bs| - 1];
    var last := bs[|bs| - 1];
    assert bs == prefix + [last];
    if b in prefix {
      AutoPassNoPool(st, prefix, b);
    } else if AutoPass(st, prefix).failed.None? {
      AutoPassKeys(st, prefix);
      assert b == last;
    }
  }

  /** From a fresh allocator, a brick that is neither an `Actuator` nor a
      `Sensor` and declares no pin makes `allocatePins` throw. */
  lemma UnpooledBrickFails(hasLCD: bool, bs: seq<Brick>, b: Brick)
    requires b in bs && PoolFor(b).None? && DeclaredPin(b).None?
    ensures AllocatePinsSpec(Init(hasLCD), bs).failed.Some?
  {
    InitFacts(hasLCD);
    ManualPassFacts(Init(hasLCD), bs);
    AutoPassNoPool(ManualPass(Init(hasLCD), bs), bs, b);
  }
}
