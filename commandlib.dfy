/**
 * The command and trigger library of the line-following vehicle.
 *
 * A trigger answers "has my condition fired?" each time it is polled; a
 * command runs once per tick, reads the four light sensors, polls its
 * trigger and writes wheel power (or lift) into the output accumulator.
 * The closures of the original become data here: a `TriggerMaker` or a
 * `CommandMaker` says which factory built the closure and with which
 * parameter, a `Trigger` carries the closure's private latch, and
 * `PollTrigger` / `Step` are the closures' bodies.
 */
module CommandLib {
  import opened Numeric

  // ---------------------------------------------------------------------
  // Sensor snapshot
  // ---------------------------------------------------------------------

  /** The four readings as `Luminance.keys()` hands them out. */
  datatype Sensors = Sensors(top: real, lft: real, bot: real, rgt: real) {
    /** What the sampler delivers: a luminance in [0, 1] on every side. */
    predicate InRange() {
      0.0 <= top <= 1.0 && 0.0 <= lft <= 1.0 && 0.0 <= bot <= 1.0 && 0.0 <= rgt <= 1.0
    }

    /** Reading number `i`, in the order top, lft, bot, rgt. */
    function At(i: nat): real
      requires i < 4
    {
      if i == 0 then top else if i == 1 then lft else if i == 2 then bot else rgt
    }
  }

  /** The `side` argument of `Luminance.set`: a side name or a side number. */
  datatype SideKey = Name(name: string) | Index(n: int)

  /** The reading a key selects, if any: "top"/0, "lft"/1, "bot"/2, "rgt"/3. */
  function SideIndex(side: SideKey): (r: Option<nat>)
    ensures r.Some? ==> r.value < 4
    ensures side.Index? ==> (r.Some? <==> 0 <= side.n < 4)
    ensures side.Index? && r.Some? ==> r.value == side.n
  {
    match side
    case Name(s) =>
      if s == "top" then Some(0)
      else if s == "lft" then Some(1)
      else if s == "bot" then Some(2)
      else if s == "rgt" then Some(3)
      else None
    case Index(n) =>
      if n == 0 then Some(0)
      else if n == 1 then Some(1)
      else if n == 2 then Some(2)
      else if n == 3 then Some(3)
      else None
  }

  /** The sensor snapshot, written in place by the sampler once per frame. */
  class Luminance {
    var top: real
    var lft: real
    var bot: real
    var rgt: real

    constructor ()
      ensures Keys() == Sensors(0.0, 0.0, 0.0, 0.0)
    {
      top, lft, bot, rgt := 0.0, 0.0, 0.0, 0.0;
    }

    /** `keys()`: the four readings as one value, numbered as `get` and `set` number them. */
    function Keys(): (k: Sensors)
      reads this
      ensures k.At(0) == top && k.At(1) == lft && k.At(2) == bot && k.At(3) == rgt
    {
      Sensors(top, lft, bot, rgt)
    }

    /** `get(i)`: reading `i` for 0..3, NaN for any other number. */
    function Get(i: int): (r: Num)
      reads this
      ensures 0 <= i < 4 ==> r == Finite(Keys().At(i))
      ensures !(0 <= i < 4) ==> r == NaN
    {
      if i == 0 then Finite(top)
      else if i == 1 then Finite(lft)
      else if i == 2 then Finite(bot)
      else if i == 3 then Finite(rgt)
      else NaN
    }

    /** `map(fn)`: `fn` applied to the readings 0..3, in that order. */
    function Map<T>(fn: real -> T): (r: seq<T>)
      reads this
      ensures |r| == 4
      ensures forall i :: 0 <= i < 4 ==> Get(i).Finite? && r[i] == fn(Get(i).value)
    {
      [fn(top), fn(lft), fn(bot), fn(rgt)]
    }

    /**
     * `set(value, side)`: the selected reading becomes `value` cut to two
     * decimals; every other reading keeps its value.  An unknown side only
     * logs a warning (left out) and changes nothing.
     */
    method Set(value: real, side: SideKey)
      modifies this
      ensures forall i :: 0 <= i < 4 ==>
        Get(i) == if SideIndex(side) == Some(i) then Finite(Trunc2(value)) else old(Get(i))
      ensures SideIndex(side).None? ==> Keys() == old(Keys())
    {
      var v := Trunc2(value);
      var k := SideIndex(side);
      if k == Some(0) {
        top := v;
      } else if k == Some(1) {
        lft := v;
      } else if k == Some(2) {
        bot := v;
      } else if k == Some(3) {
        rgt := v;
      }
    }
  }

  // ---------------------------------------------------------------------
  // Output accumulator
  // ---------------------------------------------------------------------

  /** The accumulator's contents: `_drive = [left, right]`, `_probe = [Y, X]`. */
  datatype Param = Param(driveLeft: real, driveRight: real, probeY: real, probeX: real)

  /** A fresh accumulator: everything zero. */
  const ZeroParam := Param(0.0, 0.0, 0.0, 0.0)

  /** Both wheel powers are in [-1, 1] and have at most two decimals. */
  ghost predicate Clamped(p: Param) {
    -1.0 <= p.driveLeft <= 1.0 && -1.0 <= p.driveRight <= 1.0
    && Quantized(p.driveLeft) && Quantized(p.driveRight)
  }

  /** `drive(left?, right?)`: a supplied side becomes its cleaned value. */
  function SetDrive(p: Param, left: Option<real>, right: Option<real>): (q: Param)
    ensures q.probeY == p.probeY && q.probeX == p.probeX
    ensures q.driveLeft == if left.Some? then Clean(left.value) else p.driveLeft
    ensures q.driveRight == if right.Some? then Clean(right.value) else p.driveRight
    ensures left.Some? && right.Some? ==> Clamped(q)
  {
    p.(driveLeft := if left.Some? then Clean(left.value) else p.driveLeft,
       driveRight := if right.Some? then Clean(right.value) else p.driveRight)
  }

  /** `addDrive(left?, right?)`: a supplied side grows by its cleaned value; the sum is not clamped again. */
  function IncDrive(p: Param, left: Option<real>, right: Option<real>): (q: Param)
    ensures q.probeY == p.probeY && q.probeX == p.probeX
    ensures q.driveLeft - p.driveLeft == if left.Some? then Clean(left.value) else 0.0
    ensures q.driveRight - p.driveRight == if right.Some? then Clean(right.value) else 0.0
  {
    p.(driveLeft := if left.Some? then p.driveLeft + Clean(left.value) else p.driveLeft,
       driveRight := if right.Some? then p.driveRight + Clean(right.value) else p.driveRight)
  }

  /** `probe(y?, x?)`: a supplied axis is set as given, without any clamping. */
  function SetProbe(p: Param, y: Option<real>, x: Option<real>): (q: Param)
    ensures q.driveLeft == p.driveLeft && q.driveRight == p.driveRight
    ensures q.probeY == if y.Some? then y.value else p.probeY
    ensures q.probeX == if x.Some? then x.value else p.probeX
  {
    p.(probeY := if y.Some? then y.value else p.probeY,
       probeX := if x.Some? then x.value else p.probeX)
  }

  /** `addProbe(y?, x?)`: a supplied axis grows by the given amount, without any clamping. */
  function IncProbe(p: Param, y: Option<real>, x: Option<real>): (q: Param)
    ensures q.driveLeft == p.driveLeft && q.driveRight == p.driveRight
    ensures q.probeY - p.probeY == if y.Some? then y.value else 0.0
    ensures q.probeX - p.probeX == if x.Some? then x.value else 0.0
  {
    p.(probeY := if y.Some? then p.probeY + y.value else p.probeY,
       probeX := if x.Some? then p.probeX + x.value else p.probeX)
  }

  /** Writing back a wheel power that was read from a clamped accumulator changes nothing. */
  lemma SetDriveOfStoredIsNoop(p: Param)
    requires Clamped(p)
    ensures SetDrive(p, Some(p.driveLeft), Some(p.driveRight)) == p
  {
    Trunc2OfQuantized(p.driveLeft);
    Trunc2OfQuantized(p.driveRight);
  }

  /** Unlike `drive`, `addDrive` can push a wheel power out of [-1, 1]. */
  lemma AddDriveCanLeaveRange()
    ensures IncDrive(Param(1.0, 0.0, 0.0, 0.0), Some(0.5), None).driveLeft == 1.5
  {
    assert Trunc(0.5 * 100.0) == 50;
  }

  datatype Wheel = Left | Right
  datatype Axis = Y | X

  /** The output accumulator (`CommandParam`); both pairs are two-slot arrays updated in place. */
  class CommandParam {
    const drive: array<real>
    const probe: array<real>

    ghost predicate Valid()
      reads this
    {
      drive.Length == 2 && probe.Length == 2 && drive != probe
    }

    /** The accumulator's contents as a value. */
    function Value(): Param
      reads this, drive, probe
      requires Valid()
    {
      Param(drive[0], drive[1], probe[0], probe[1])
    }

    constructor ()
      ensures Valid() && fresh(drive) && fresh(probe)
      ensures Value() == ZeroParam
    {
      drive := new real[2](_ => 0.0);
      probe := new real[2](_ => 0.0);
    }

    method Drive(left: Option<real>, right: Option<real>)
      requires Valid()
      modifies drive
      ensures Valid() && Value() == SetDrive(old(Value()), left, right)
    {
      if left.Some? {
        drive[0] := Clean(left.value);
      }
      if right.Some? {
        drive[1] := Clean(right.value);
      }
    }

    method AddDrive(left: Option<real>, right: Option<real>)
      requires Valid()
      modifies drive
      ensures Valid() && Value() == IncDrive(old(Value()), left, right)
    {
      if left.Some? {
        drive[0] := drive[0] + Clean(left.value);
      }
      if right.Some? {
        drive[1] := drive[1] + Clean(right.value);
      }
    }

    method Probe(y: Option<real>, x: Option<real>)
      requires Valid()
      modifies probe
      ensures Valid() && Value() == SetProbe(old(Value()), y, x)
    {
      if y.Some? {
        probe[0] := y.value;
      }
      if x.Some? {
        probe[1] := x.value;
      }
    }

    method AddProbe(y: Option<real>, x: Option<real>)
      requires Valid()
      modifies probe
      ensures Valid() && Value() == IncProbe(old(Value()), y, x)
    {
      if y.Some? {
        probe[0] := probe[0] + y.value;
      }
      if x.Some? {
        probe[1] := probe[1] + x.value;
      }
    }

    /** `getDrive(side)`: what the physics layer applies to a wheel motor. */
    function GetDrive(side: Wheel): (r: real)
      reads this, drive, probe
      requires Valid()
      ensures r == if side == Left then Value().driveLeft else Value().driveRight
      ensures Clamped(Value()) ==> -1.0 <= r <= 1.0
    {
      drive[if side == Left then 0 else 1]
    }

    /** `getProbe(axis)`: "Y" is the lift slot, anything else the second slot. */
    function GetProbe(axis: Axis): (r: real)
      reads this, drive, probe
      requires Valid()
      ensures r == if axis == Y then Value().probeY else Value().probeX
    {
      probe[if axis == Y then 0 else 1]
    }
  }

  // ---------------------------------------------------------------------
  // Triggers
  // ---------------------------------------------------------------------

  /** The five line patterns `intersection` can wait for. */
  datatype Lock = R | L | T | I | W

  /** The readings that must be dark (below 0.4) for a lock. */
  function Dark(lock: Lock, s: Sensors): seq<real> {
    match lock
    case R => [s.rgt, s.top, s.bot]
    case L => [s.lft, s.top, s.bot]
    case T => [s.bot, s.rgt, s.lft]
    case I => [s.top, s.bot]
    case W => []
  }

  /** The readings that must be light (above 0.8) for a lock. */
  function Light(lock: Lock, s: Sensors): seq<real> {
    match lock
    case I => [s.lft, s.rgt]
    case W => [s.top, s.bot, s.rgt, s.lft]
    case _ => []
  }

  /** `xs.every((x) => x < bound)` */
  predicate AllBelow(xs: seq<real>, bound: real) {
    forall i :: 0 <= i < |xs| ==> xs[i] < bound
  }

  /** `xs.every((x) => x > bound)` */
  predicate AllAbove(xs: seq<real>, bound: real) {
    forall i :: 0 <= i < |xs| ==> xs[i] > bound
  }

  /** The condition `intersection(lock)` tests on every poll. */
  predicate IntersectionHolds(lock: Lock, s: Sensors)
    ensures lock.W? && IntersectionHolds(lock, s) ==> s.top > 0.8 && s.bot > 0.8 && s.lft > 0.8 && s.rgt > 0.8
    ensures !lock.W? && IntersectionHolds(lock, s) ==> s.bot < 0.4
  {
    var dark, light := Dark(lock, s), Light(lock, s);
    // every line pattern includes the bottom sensor; the white pattern reads all four
    assert !lock.W? ==> s.bot in dark;
    assert lock.W? ==> s.top in light && s.bot in light && s.lft in light && s.rgt in light;
    AllBelow(dark, 0.4) && AllAbove(light, 0.8)
  }

  /** The five patterns side by side: which sensors must see the line and which must see white. */
  lemma IntersectionPatterns(s: Sensors)
    ensures IntersectionHolds(R, s) <==> s.rgt < 0.4 && s.top < 0.4 && s.bot < 0.4
    ensures IntersectionHolds(L, s) <==> s.lft < 0.4 && s.top < 0.4 && s.bot < 0.4
    ensures IntersectionHolds(T, s) <==> s.bot < 0.4 && s.rgt < 0.4 && s.lft < 0.4
    ensures IntersectionHolds(I, s) <==> s.top < 0.4 && s.bot < 0.4 && s.lft > 0.8 && s.rgt > 0.8
    ensures IntersectionHolds(W, s) <==> s.top > 0.8 && s.bot > 0.8 && s.lft > 0.8 && s.rgt > 0.8
  {
    assert Dark(R, s)[0] == s.rgt && Dark(R, s)[1] == s.top && Dark(R, s)[2] == s.bot;
    assert Dark(L, s)[0] == s.lft && Dark(L, s)[1] == s.top && Dark(L, s)[2] == s.bot;
    assert Dark(T, s)[0] == s.bot && Dark(T, s)[1] == s.rgt && Dark(T, s)[2] == s.lft;
    assert Dark(I, s)[0] == s.top && Dark(I, s)[1] == s.bot;
    assert Light(I, s)[0] == s.lft && Light(I, s)[1] == s.rgt;
    assert Light(W, s)[0] == s.top && Light(W, s)[1] == s.bot;
    assert Light(W, s)[2] == s.rgt && Light(W, s)[3] == s.lft;
  }

  /** The factories a program names: `done`, `intersection(lock)`, `timer(ticks)`. */
  datatype TriggerMaker = Done | Intersection(lock: Lock) | Timer(ticks: real)

  /**
   * A live trigger.  `Never` is the scheduler's `() => false` placeholder
   * for a unit without a trigger maker; an `Armed` trigger keeps the timer
   * closure's private `{ started, time }` latch (unused by the other makers).
   */
  datatype Trigger = Never | Armed(maker: TriggerMaker, started: bool, deadline: real)

  /** Calling a trigger maker: the latch starts as `{ started: false, time: 0 }`. */
  function Make(m: TriggerMaker): (t: Trigger)
    ensures t.Armed? && t.maker == m && !t.started
  {
    Armed(m, false, 0.0)
  }

  /** The answer of one poll (the trigger calls its `next` callback exactly when it answers true) and the latch after it. */
  datatype Poll = Poll(fired: bool, after: Trigger)

  /** One call of a trigger closure, at scheduler time `tick`. */
  function PollTrigger(t: Trigger, s: Sensors, tick: real): (r: Poll)
    ensures t.Never? ==> r == Poll(false, t)
    ensures t.Armed? ==> r.after.Armed? && r.after.maker == t.maker
    ensures t.Armed? && t.maker.Done? ==> r.fired
    ensures t.Armed? && t.maker.Intersection? ==> r.fired == IntersectionHolds(t.maker.lock, s)
  {
    match t
    case Never => Poll(false, t)
    case Armed(m, started, deadline) =>
      match m
      case Done => Poll(true, t)
      case Intersection(lock) => Poll(IntersectionHolds(lock, s), t)
      case Timer(ticks) =>
        if !started then Poll(false, Armed(m, true, tick + ticks))
        else if deadline < tick then Poll(true, t)
        else Poll(false, t)
  }

  /** A poll: the sensor snapshot and the scheduler's `tick` at that moment. */
  datatype Moment = Moment(sensors: Sensors, tick: real)

  /** The answers of polling `t` at each moment in turn. */
  function PollAll(t: Trigger, ms: seq<Moment>): (r: seq<bool>)
    ensures |r| == |ms|
    decreases |ms|
  {
    if ms == [] then []
    else
      var p := PollTrigger(t, ms[0].sensors, ms[0].tick);
      [p.fired] + PollAll(p.after, ms[1..])
  }

  /** A timer whose latch is already set answers by comparing its deadline with the current tick, strictly. */
  lemma {:induction false} StartedTimerPolls(ticks: real, deadline: real, ms: seq<Moment>)
    ensures forall i :: 0 <= i < |ms| ==>
      PollAll(Armed(Timer(ticks), true, deadline), ms)[i] == (deadline < ms[i].tick)
  {
    if ms != [] {
      StartedTimerPolls(ticks, deadline, ms[1..]);
      var r := PollAll(Armed(Timer(ticks), true, deadline), ms);
      forall i | 0 <= i < |ms|
        ensures r[i] == (deadline < ms[i].tick)
      {
        if i > 0 {
          assert r[i] == PollAll(Armed(Timer(ticks), true, deadline), ms[1..])[i - 1];
          assert ms[1..][i - 1] == ms[i];
        }
      }
    }
  }

  /** Fresh triggers over a series of polls: `done` fires every time, `intersection` whenever its pattern holds, `Never` never. */
  lemma {:induction false} StatelessPolls(t: Trigger, ms: seq<Moment>)
    requires t.Never? || (t.Armed? && !t.maker.Timer?)
    ensures forall i :: 0 <= i < |ms| ==>
      PollAll(t, ms)[i] == match t
        case Never => false
        case Armed(m, _, _) => m.Done? || IntersectionHolds(m.lock, ms[i].sensors)
  {
    if ms != [] {
      StatelessPolls(t, ms[1..]);
      var r := PollAll(t, ms);
      forall i | 0 < i < |ms|
        ensures r[i] == PollAll(t, ms[1..])[i - 1] && ms[1..][i - 1] == ms[i]
      {
      }
    }
  }

  /**
   * `timer(ticks)`: the first poll answers false and records
   * `deadline = tick + ticks`; every later poll answers true exactly when
   * the deadline lies strictly before the tick of that poll.
   */
  lemma {:induction false} TimerPolls(ticks: real, ms: seq<Moment>)
    requires ms != []
    ensures forall i :: 0 <= i < |ms| ==>
      PollAll(Make(Timer(ticks)), ms)[i] == (i > 0 && ms[0].tick + ticks < ms[i].tick)
  {
    var d := ms[0].tick + ticks;
    var r := PollAll(Make(Timer(ticks)), ms);
    assert r == [false] + PollAll(Armed(Timer(ticks), true, d), ms[1..]);
    StartedTimerPolls(ticks, d, ms[1..]);
    forall i | 0 < i < |ms|
      ensures r[i] == (d < ms[i].tick)
    {
      assert ms[1..][i - 1] == ms[i];
    }
  }

  // ---------------------------------------------------------------------
  // Commands
  // ---------------------------------------------------------------------

  /**
   * The command factories a program names.  `trace()` is `Trace(1.0)` and
   * `drive([deg])` is `Drive(deg, 1.0)`, the source's defaults.
   */
  datatype CommandMaker = Go | Trace(speed: real) | Align | Stop | Drive(deg: real, pow: real) | Probe(speed: real)

  /** Raw left/right wheel power, before the accumulator cleans it. */
  datatype Wheels = Wheels(left: real, right: real) {
    function Swap(): Wheels { Wheels(right, left) }
  }

  /** three.js `mapLinear`: maps `x` from [a1, a2] onto [b1, b2]. */
  function MapLinear(x: real, a1: real, a2: real, b1: real, b2: real): (y: real)
    requires a1 != a2
    ensures x == a1 ==> y == b1
    ensures x == a2 ==> y == b2
    ensures a1 < a2 && b1 < b2 ==> (a1 <= x <= a2 <==> b1 <= y <= b2)
  {
    b1 + (x - a1) * (b2 - b1) / (a2 - a1)
  }

  /**
   * `trace(speed)`: the darker side's wheel is slowed to
   * `2 * min / max - 1` of full speed; the other one runs at full speed.
   * A speed of 0 stands for 1.  When both readings are equal no turn is
   * used (the source's 0/0 ratio is then computed but never read).
   */
  function TraceWheels(speed: real, lft: real, rgt: real): (w: Wheels)
    requires 0.0 <= lft && 0.0 <= rgt
    ensures var sp := if speed == 0.0 then 1.0 else speed;
      && (lft == rgt ==> w == Wheels(sp, sp))
      && (lft > rgt ==> w == Wheels(sp, sp * (2.0 * rgt / lft - 1.0)))
      && (rgt > lft ==> w == Wheels(sp * (2.0 * lft / rgt - 1.0), sp))
  {
    var sp := if speed == 0.0 then 1.0 else speed;
    if lft == rgt then Wheels(sp, sp)
    else
      var turn := MapLinear(Min(lft, rgt) / Max(lft, rgt), 0.0, 1.0, -1.0, 1.0);
      if lft > rgt then Wheels(sp, turn * sp)
      else Wheels(turn * sp, sp)
  }

  /** `|lft - rgt|`, the imbalance `align` works on. */
  function AlignTurn(lft: real, rgt: real): (t: real)
    ensures t >= 0.0 && t == Abs(lft - rgt)
  {
    Max(lft, rgt) - Min(lft, rgt)
  }

  /**
   * `align`: turn on the spot.  Both wheels start at `max(turn, 0.1)`; the
   * dimmer side's wheel is then set to `-turn`.
   */
  function AlignWheels(lft: real, rgt: real): (w: Wheels)
    ensures lft > rgt ==> w == Wheels(Max(lft - rgt, 0.1), rgt - lft)
    ensures rgt > lft ==> w == Wheels(lft - rgt, Max(rgt - lft, 0.1))
    ensures lft == rgt ==> w == Wheels(0.1, 0.1)
  {
    var turn := AlignTurn(lft, rgt);
    var base := Max(turn, 0.1);
    if lft > rgt then Wheels(base, -turn)
    else if rgt > lft then Wheels(-turn, base)
    else Wheels(base, base)
  }

  /** `drive([deg, pow])`: the wheel on the turning side is scaled by `1 - 2|deg|`; both by `pow`. */
  function DriveWheels(deg: real, pow: real): (w: Wheels)
    ensures deg < 0.0 ==> w == Wheels(pow, (1.0 + 2.0 * deg) * pow)
    ensures deg > 0.0 ==> w == Wheels((1.0 - 2.0 * deg) * pow, pow)
    ensures deg == 0.0 ==> w == Wheels(pow, pow)
  {
    var left := if deg > 0.0 then 1.0 - Abs(deg) * 2.0 else 1.0;
    var right := if deg < 0.0 then 1.0 - Abs(deg) * 2.0 else 1.0;
    Wheels(left * pow, right * pow)
  }

  /** Whether a command calls its trigger this tick: `align` only when nearly balanced, all others always. */
  predicate PollsTrigger(c: CommandMaker, s: Sensors)
    ensures !c.Align? ==> PollsTrigger(c, s)
    ensures c.Align? ==> (PollsTrigger(c, s) <==> Abs(s.lft - s.rgt) < 0.42)
  {
    c.Align? ==> AlignTurn(s.lft, s.rgt) < 0.42
  }

  /** What a command writes into the accumulator on one tick. */
  datatype Effect = SetWheels(left: real, right: real) | AddLift(y: real) | Hold

  /** The write a command makes, given the answer its trigger gave (false when it did not poll). */
  function CommandEffect(c: CommandMaker, s: Sensors, fired: bool): (e: Effect)
    requires s.InRange()
    ensures c.Probe? <==> !e.SetWheels?
    ensures c.Probe? ==> (e.Hold? <==> fired)
    ensures fired && !c.Probe? && !c.Align? ==> e == SetWheels(0.0, 0.0)
  {
    match c
    case Go => if fired then SetWheels(0.0, 0.0) else SetWheels(1.0, 1.0)
    case Trace(speed) =>
      if fired then SetWheels(0.0, 0.0)
      else var w := TraceWheels(speed, s.lft, s.rgt); SetWheels(w.left, w.right)
    case Align => var w := AlignWheels(s.lft, s.rgt); SetWheels(w.left, w.right)
    case Stop => SetWheels(0.0, 0.0)
    case Drive(deg, pow) =>
      if fired then SetWheels(0.0, 0.0)
      else var w := DriveWheels(deg, pow); SetWheels(w.left, w.right)
    case Probe(speed) => if fired then Hold else AddLift(speed)
  }

  /** Carrying out a write: wheels through `drive`, lift through `addProbe`. */
  function ApplyEffect(e: Effect, p: Param): (q: Param)
    ensures Clamped(p) ==> Clamped(q)
  {
    match e
    case SetWheels(l, r) => SetDrive(p, Some(l), Some(r))
    case AddLift(y) => IncProbe(p, Some(y), None)
    case Hold => p
  }

  /** The result of running a command once: the accumulator, its trigger's latch, and whether the trigger fired. */
  datatype StepResult = StepResult(param: Param, trig: Trigger, fired: bool)

  /** One call of a command closure built from `c` around trigger `t`. */
  function Step(c: CommandMaker, t: Trigger, s: Sensors, tick: real, p: Param): (r: StepResult)
    requires s.InRange()
    ensures Clamped(p) ==> Clamped(r.param)
    ensures r.fired ==> PollsTrigger(c, s) && t.Armed?
    ensures t.Never? ==> !r.fired && r.trig == t
  {
    var q := if PollsTrigger(c, s) then PollTrigger(t, s, tick) else Poll(false, t);
    StepResult(ApplyEffect(CommandEffect(c, s, q.fired), p), q.after, q.fired)
  }

  // ---------------------------------------------------------------------
  // Properties of the command formulas
  // ---------------------------------------------------------------------

  /** `mapLinear(x, 0, 1, -1, 1)`, the remap `trace` uses, is `2x - 1`. */
  lemma MapUnitToSigned(x: real)
    ensures MapLinear(x, 0.0, 1.0, -1.0, 1.0) == 2.0 * x - 1.0
  {
  }

  /** `trace` treats the two sides alike: swapping the readings swaps the wheels. */
  lemma TraceSymmetric(speed: real, lft: real, rgt: real)
    requires 0.0 <= lft && 0.0 <= rgt
    ensures TraceWheels(speed, lft, rgt) == TraceWheels(speed, rgt, lft).Swap()
  {
    assert Min(lft, rgt) == Min(rgt, lft) && Max(lft, rgt) == Max(rgt, lft);
  }

  /**
   * `trace` steers toward the darker side: with the left side brighter the
   * left wheel runs at full speed and the right wheel strictly slower, but
   * never below full reverse; balanced readings drive straight.
   */
  lemma TraceSlowsDarkerSide(speed: real, lft: real, rgt: real)
    requires 0.0 <= rgt <= lft
    ensures lft == rgt && speed != 0.0 ==> TraceWheels(speed, lft, rgt) == Wheels(speed, speed)
    ensures lft > rgt && speed != 0.0 ==> TraceWheels(speed, lft, rgt).left == speed
    ensures lft > rgt && speed > 0.0 ==> -speed <= TraceWheels(speed, lft, rgt).right < speed
  {
    if lft > rgt && speed > 0.0 {
      var q := rgt / lft;
      RatioBelowOne(rgt, lft);
      MapUnitToSigned(q);
      var turn := 2.0 * q - 1.0;
      assert TraceWheels(speed, lft, rgt).right == turn * speed;
      ScaleBelowOne(turn, speed);
    }
  }

  /** A factor in [-1, 1) scales a positive speed into [-speed, speed). */
  lemma ScaleBelowOne(f: real, speed: real)
    requires -1.0 <= f < 1.0 && speed > 0.0
    ensures -speed <= f * speed < speed
  {
    assert (1.0 - f) * speed > 0.0;
    assert (f + 1.0) * speed >= 0.0;
  }

  /** The ratio of the darker to the brighter reading lies in [0, 1). */
  lemma RatioBelowOne(lo: real, hi: real)
    requires 0.0 <= lo < hi
    ensures 0.0 <= lo / hi < 1.0
  {
  }

  /** Trace with a zero speed behaves as trace with speed 1. */
  lemma TraceZeroSpeedIsFull(lft: real, rgt: real)
    requires 0.0 <= lft && 0.0 <= rgt
    ensures TraceWheels(0.0, lft, rgt) == TraceWheels(1.0, lft, rgt)
  {
  }

  /** `trace(1)` with lft = 0.8 and rgt = 0.2 drives (1, -0.5). */
  lemma TraceExample()
    ensures TraceWheels(1.0, 0.8, 0.2) == Wheels(1.0, -0.5)
  {
  }

  /**
   * `align` turns on the spot: when the readings differ the brighter side
   * runs forward at no less than 0.1 and the dimmer side runs backward at
   * `|lft - rgt|`; balanced readings give (0.1, 0.1).  Sides are symmetric.
   */
  lemma AlignRotates(lft: real, rgt: real)
    ensures AlignWheels(lft, rgt) == AlignWheels(rgt, lft).Swap()
    ensures lft == rgt ==> AlignWheels(lft, rgt) == Wheels(0.1, 0.1)
    ensures lft > rgt ==> AlignWheels(lft, rgt).left == Max(lft - rgt, 0.1) >= 0.1 && AlignWheels(lft, rgt).right == rgt - lft < 0.0
    ensures rgt > lft ==> AlignWheels(lft, rgt).right == Max(rgt - lft, 0.1) >= 0.1 && AlignWheels(lft, rgt).left == lft - rgt < 0.0
  {
  }

  /** `align` calls its trigger exactly when the readings are within 0.42 of each other. */
  lemma AlignPollsWhenBalanced(s: Sensors)
    ensures PollsTrigger(Align, s) <==> Abs(s.lft - s.rgt) < 0.42
  {
  }

  /**
   * `drive([deg, pow])`: straight at `pow` for deg 0; turning mirrors with
   * the sign of deg; the inner wheel stops at |deg| = 0.5 and reverses
   * beyond it, reaching `-pow` at |deg| = 1.
   */
  lemma DriveTurns(deg: real, pow: real)
    ensures DriveWheels(0.0, pow) == Wheels(pow, pow)
    ensures DriveWheels(-deg, pow) == DriveWheels(deg, pow).Swap()
    ensures deg < 0.0 ==> DriveWheels(deg, pow).left == pow
    ensures deg > 0.0 ==> DriveWheels(deg, pow).right == pow
    ensures deg < 0.0 ==> DriveWheels(deg, pow).right == (1.0 - 2.0 * Abs(deg)) * pow
    ensures deg == -0.5 ==> DriveWheels(deg, pow).right == 0.0
    ensures deg == -1.0 ==> DriveWheels(deg, pow).right == -pow
    ensures deg < -0.5 && pow > 0.0 ==> DriveWheels(deg, pow).right < 0.0
  {
  }

  /** A fired `go`, `trace` or `drive` stops both wheels; a fired `probe` leaves the accumulator alone. */
  lemma FiredCommandsStop(c: CommandMaker, s: Sensors, p: Param)
    requires s.InRange()
    ensures (c.Go? || c.Trace? || c.Drive? || c.Stop?) ==>
      ApplyEffect(CommandEffect(c, s, true), p) == p.(driveLeft := 0.0, driveRight := 0.0)
    ensures c.Probe? ==> ApplyEffect(CommandEffect(c, s, true), p) == p
  {
    assert Trunc(0.0 * 100.0) == 0;
  }

  /** Until its trigger fires, `go` drives both wheels at full power. */
  lemma GoDrivesFull(s: Sensors, p: Param)
    requires s.InRange()
    ensures ApplyEffect(CommandEffect(Go, s, false), p) == p.(driveLeft := 1.0, driveRight := 1.0)
  {
    assert Trunc(1.0 * 100.0) == 100;
  }

  /** `stop` always polls its trigger, and `done` fires on every poll: `[stop, done]` ends a bar on its first tick. */
  lemma StopWithDoneFires(s: Sensors, tick: real, p: Param)
    requires s.InRange()
    ensures Step(Stop, Make(Done), s, tick, p).fired
  {
  }

  /** Only the lift axis moves under `probe(speed)`: by `speed` per unfired tick. */
  lemma ProbeLifts(speed: real, t: Trigger, s: Sensors, tick: real, p: Param)
    requires s.InRange()
    ensures Step(Probe(speed), t, s, tick, p).param.driveLeft == p.driveLeft
    ensures Step(Probe(speed), t, s, tick, p).param.driveRight == p.driveRight
    ensures Step(Probe(speed), t, s, tick, p).param.probeX == p.probeX
    ensures Step(Probe(speed), t, s, tick, p).param.probeY
            == p.probeY + (if Step(Probe(speed), t, s, tick, p).fired then 0.0 else speed)
  {
  }
}
