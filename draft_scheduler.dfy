/**
 * The earlier, single-command scheduler of the vehicle.
 *
 * A program is a list of (command maker, trigger maker) pairs and exactly
 * one command is live at a time.  The live command's trigger is handed a
 * `next` callback that re-enters `nextCommand` at once, while the command
 * is still running: the next entry is materialised and the index advances
 * inside the running command's own call, and the old command still returns
 * its output for this frame.  Outputs go through `cleanOut`, which is
 * `Numeric.Clean`.  The timer trigger reads the wall clock; here the clock
 * is the `now` argument of a run.
 */
module DraftScheduler {
  import Numeric
  import CommandLib

  // ---------------------------------------------------------------------
  // Triggers
  // ---------------------------------------------------------------------

  /** The three patterns this version's `intersection` knows. */
  datatype Lock = R | L | T

  /** The three readings that must all be dark for a lock (`T` for anything but R and L). */
  function Readings(lock: Lock, s: CommandLib.Sensors): seq<real> {
    match lock
    case R => [s.rgt, s.top, s.bot]
    case L => [s.lft, s.top, s.bot]
    case T => [s.bot, s.rgt, s.lft]
  }

  /** The test `intersection(lock)` makes on every poll: every chosen reading below 0.45. */
  predicate Crossing(lock: Lock, s: CommandLib.Sensors)
    ensures Crossing(lock, s) ==> s.bot < 0.45
  {
    var xs := Readings(lock, s);
    assert s.bot in xs;
    forall i :: 0 <= i < |xs| ==> xs[i] < 0.45
  }

  /** The factories: `none`, `intersection(lock)`, `timer(ms)`. */
  datatype TriggerMaker = None | Intersection(lock: Lock) | Timer(ms: real)

  /**
   * A live trigger: its maker and the timer closure's `{ started, time }`
   * latch.  Before the first poll the source's `time` is `Infinity`; it is
   * never read before being set, so any value stands for it here.
   */
  datatype Trigger = Trigger(maker: TriggerMaker, started: bool, deadline: real)

  /** A trigger as its maker builds it: not yet started. */
  function MakeTrigger(m: TriggerMaker): (t: Trigger)
    ensures t.maker == m && !t.started
  {
    Trigger(m, false, 0.0)
  }

  datatype Poll = Poll(fired: bool, after: Trigger)

  /** One call of a trigger closure at wall-clock time `now`; `fired` is when it calls `next`. */
  function PollTrigger(t: Trigger, s: CommandLib.Sensors, now: real): (r: Poll)
    ensures r.after.maker == t.maker
    ensures !t.maker.Timer? ==> r.after == t
  {
    match t.maker
    case None => Poll(false, t)
    case Intersection(lock) => Poll(Crossing(lock, s), t)
    case Timer(ms) =>
      if !t.started then Poll(false, t.(started := true, deadline := now + ms))
      else if t.deadline < now then Poll(true, t)
      else Poll(false, t)
  }

  /** `none` never fires; `intersection` fires exactly when its three readings are all below 0.45. */
  lemma TriggerAnswers(t: Trigger, s: CommandLib.Sensors, now: real)
    ensures t.maker.None? ==> !PollTrigger(t, s, now).fired
    ensures t.maker == Intersection(R) ==>
      (PollTrigger(t, s, now).fired <==> s.rgt < 0.45 && s.top < 0.45 && s.bot < 0.45)
    ensures t.maker == Intersection(L) ==>
      (PollTrigger(t, s, now).fired <==> s.lft < 0.45 && s.top < 0.45 && s.bot < 0.45)
    ensures t.maker == Intersection(T) ==>
      (PollTrigger(t, s, now).fired <==> s.bot < 0.45 && s.rgt < 0.45 && s.lft < 0.45)
  {
    if t.maker.Intersection? {
      var xs := Readings(t.maker.lock, s);
      assert |xs| == 3;
      assert Crossing(t.maker.lock, s) <==> xs[0] < 0.45 && xs[1] < 0.45 && xs[2] < 0.45;
    }
  }

  /**
   * A timer answers false on its first poll, which starts it with deadline
   * `start + ms`; any later poll answers true exactly when that deadline is
   * strictly before the current time, and leaves the latch as it was.
   */
  lemma TimerPolls(ms: real, s1: CommandLib.Sensors, start: real, s2: CommandLib.Sensors, now: real)
    ensures var first := PollTrigger(MakeTrigger(Timer(ms)), s1, start);
      && !first.fired
      && first.after == Trigger(Timer(ms), true, start + ms)
      && PollTrigger(first.after, s2, now) == Poll(start + ms < now, first.after)
  {
  }

  /** The library's stricter test (below 0.4) always satisfies this version's test (below 0.45). */
  lemma LibraryIntersectionImpliesCrossing(s: CommandLib.Sensors)
    ensures CommandLib.IntersectionHolds(CommandLib.R, s) ==> Crossing(R, s)
    ensures CommandLib.IntersectionHolds(CommandLib.L, s) ==> Crossing(L, s)
    ensures CommandLib.IntersectionHolds(CommandLib.T, s) ==> Crossing(T, s)
  {
    CommandLib.IntersectionPatterns(s);
    TriggerAnswers(MakeTrigger(Intersection(R)), s, 0.0);
    TriggerAnswers(MakeTrigger(Intersection(L)), s, 0.0);
    TriggerAnswers(MakeTrigger(Intersection(T)), s, 0.0);
  }

  // ---------------------------------------------------------------------
  // Commands
  // ---------------------------------------------------------------------

  /** The command factories: `go`, `trace`, `align`, `stop`, `fin`, `drive(degrees)`. */
  datatype CommandMaker = Go | Trace | Align | Stop | Fin | Drive(degrees: real)

  /** `align`'s imbalance, `max - min` of the side readings. */
  function Imbalance(s: CommandLib.Sensors): real {
    Numeric.Max(s.lft, s.rgt) - Numeric.Min(s.lft, s.rgt)
  }

  /** Whether a command calls its trigger: `align` only when the sides are within 0.15, the others always. */
  predicate Polls(c: CommandMaker, s: CommandLib.Sensors)
    ensures !c.Align? ==> Polls(c, s)
    ensures c.Align? ==> (Polls(c, s) <==> Numeric.Abs(s.lft - s.rgt) < 0.15)
  {
    c.Align? ==> Imbalance(s) < 0.15
  }

  /**
   * `trace`: full power, except that the darker side's wheel gets
   * `mapLinear(min / max, 0, 1, -1, 1)`.  With equal readings the ratio is
   * never read (the source computes 0 / 0 then, unused).
   */
  function TraceWheels(s: CommandLib.Sensors): (w: CommandLib.Wheels)
    requires 0.0 <= s.lft && 0.0 <= s.rgt
    ensures s.lft == s.rgt ==> w == CommandLib.Wheels(1.0, 1.0)
    ensures s.lft > s.rgt ==> w == CommandLib.Wheels(1.0, 2.0 * s.rgt / s.lft - 1.0)
    ensures s.rgt > s.lft ==> w == CommandLib.Wheels(2.0 * s.lft / s.rgt - 1.0, 1.0)
    ensures -1.0 <= w.left <= 1.0 && -1.0 <= w.right <= 1.0
  {
    if s.lft == s.rgt then CommandLib.Wheels(1.0, 1.0)
    else
      var lo, hi := Numeric.Min(s.lft, s.rgt), Numeric.Max(s.lft, s.rgt);
      var ratio := lo / hi;
      CommandLib.RatioBelowOne(lo, hi);
      var turn := CommandLib.MapLinear(ratio, 0.0, 1.0, -1.0, 1.0);
      if s.lft > s.rgt then CommandLib.Wheels(1.0, turn) else CommandLib.Wheels(turn, 1.0)
  }

  /** The wheel powers a command returns, given what its trigger answered (false when not polled). */
  function Output(c: CommandMaker, s: CommandLib.Sensors, fired: bool): (w: CommandLib.Wheels)
    requires s.InRange()
    ensures fired && !c.Align? ==> w == CommandLib.Wheels(0.0, 0.0)
    ensures c.Stop? || c.Fin? ==> w == CommandLib.Wheels(0.0, 0.0)
    ensures !c.Drive? ==> -1.0 <= w.left <= 1.0 && -1.0 <= w.right <= 1.0
  {
    match c
    case Go => if fired then CommandLib.Wheels(0.0, 0.0) else CommandLib.Wheels(1.0, 1.0)
    case Trace => if fired then CommandLib.Wheels(0.0, 0.0) else TraceWheels(s)
    case Align =>
      var turn := Imbalance(s);
      if s.lft > s.rgt then CommandLib.Wheels(turn, -turn)
      else if s.rgt > s.lft then CommandLib.Wheels(-turn, turn)
      else CommandLib.Wheels(turn, turn)
    case Stop => CommandLib.Wheels(0.0, 0.0)
    case Fin => CommandLib.Wheels(0.0, 0.0)
    case Drive(d) =>
      if fired then CommandLib.Wheels(0.0, 0.0)
      else if d < 0.0 then CommandLib.Wheels(1.0, d)
      else if d > 0.0 then CommandLib.Wheels(-d, 1.0)
      else CommandLib.Wheels(1.0, 1.0)
  }

  /** This version's `trace` is the library's `trace` at full speed. */
  lemma TraceMatchesLibrary(s: CommandLib.Sensors)
    requires s.InRange()
    ensures Output(Trace, s, false) == CommandLib.TraceWheels(1.0, s.lft, s.rgt)
    ensures Output(Trace, s, false) == CommandLib.TraceWheels(0.0, s.lft, s.rgt)
  {
  }

  /**
   * `align` spins on the spot at the imbalance `|lft - rgt|`, forward on the
   * brighter side, whatever its trigger answers.
   */
  lemma AlignSpins(s: CommandLib.Sensors, fired: bool)
    requires s.InRange()
    ensures var w := Output(Align, s, fired);
      && w.left == -w.right
      && (s.lft >= s.rgt ==> w.left == s.lft - s.rgt)
      && (s.rgt >= s.lft ==> w.right == s.rgt - s.lft)
      && w == Output(Align, s, false)
    ensures Polls(Align, s) <==> Numeric.Abs(s.lft - s.rgt) < 0.15
  {
  }

  /** `drive(d)`: (1, d) for a left turn, (-d, 1) for a right turn, straight ahead for 0; zero once fired. */
  lemma DriveOutputs(d: real, s: CommandLib.Sensors)
    requires s.InRange()
    ensures d < 0.0 ==> Output(Drive(d), s, false) == CommandLib.Wheels(1.0, d)
    ensures d > 0.0 ==> Output(Drive(d), s, false) == CommandLib.Wheels(-d, 1.0)
    ensures d == 0.0 ==> Output(Drive(d), s, false) == CommandLib.Wheels(1.0, 1.0)
    ensures Output(Drive(d), s, true) == CommandLib.Wheels(0.0, 0.0)
    ensures -1.0 <= d <= 1.0 ==> Output(Drive(-d), s, false) == Output(Drive(d), s, false).Swap()
  {
  }

  /** Every command that polls first stops dead on the tick its trigger fires, except `align`. */
  lemma FiredCommandsStop(c: CommandMaker, s: CommandLib.Sensors)
    requires s.InRange() && !c.Align?
    ensures Output(c, s, true) == CommandLib.Wheels(0.0, 0.0)
  {
  }

  // ---------------------------------------------------------------------
  // The scheduler
  // ---------------------------------------------------------------------

  /** One program entry: `[commandMaker, triggerMaker]`. */
  datatype Entry = Entry(command: CommandMaker, trigger: TriggerMaker)

  /** The live command: `blank`, or a command built from an entry, with its trigger's latch. */
  datatype Current = Blank | Live(maker: CommandMaker, trigger: Trigger)

  /** The scheduler's state: the program, the index, the live command and the last outputs. */
  datatype Draft = Draft(queue: seq<Entry>, idx: int, command: Current, left: real, right: real)

  /**
   * Between runs the index is -1 exactly when nothing is live, never 0, and
   * never past the end of the program.
   */
  ghost predicate Settled(d: Draft) {
    -1 <= d.idx <= |d.queue| && d.idx != 0 && (d.idx == -1 <==> d.command.Blank?)
  }

  /** The state the constructor builds. */
  function Initial(queue: seq<Entry>): (d: Draft)
    ensures Settled(d) && d.idx == -1 && d.command == Blank
    ensures d.queue == queue && d.left == 0.0 && d.right == 0.0
  {
    Draft(queue, -1, Blank, 0.0, 0.0)
  }

  /** Building the command of an entry: its trigger is made first, then handed to the command. */
  function Materialise(e: Entry): (c: Current)
    ensures c.Live? && c.maker == e.command && c.trigger.maker == e.trigger && !c.trigger.started
  {
    Live(e.command, MakeTrigger(e.trigger))
  }

  /** `nextCommand()`: the entry at the index becomes the live command and the index advances. */
  function NextEntry(d: Draft): (r: Draft)
    requires 0 <= d.idx < |d.queue|
    ensures r.idx == d.idx + 1 && r.command == Materialise(d.queue[d.idx])
    ensures r.queue == d.queue && r.left == d.left && r.right == d.right
  {
    d.(command := Materialise(d.queue[d.idx]), idx := d.idx + 1)
  }

  /**
   * One call of the live command.  When its trigger fires, the trigger's
   * `next` re-enters `nextCommand` before the command returns, so the
   * returned state already holds the next entry; the output is still the
   * old command's.
   */
  function Invoke(d: Draft, s: CommandLib.Sensors, now: real): (r: (Draft, CommandLib.Wheels))
    requires s.InRange() && d.idx < |d.queue| && (d.command.Live? ==> 0 <= d.idx)
    ensures r.0.queue == d.queue && r.0.left == d.left && r.0.right == d.right
  {
    match d.command
    case Blank => (d, CommandLib.Wheels(0.0, 0.0))
    case Live(c, t) =>
      if Polls(c, s) then
        var p := PollTrigger(t, s, now);
        var d1 := d.(command := Live(c, p.after));
        (if p.fired then NextEntry(d1) else d1, Output(c, s, p.fired))
      else (d, Output(c, s, false))
  }

  /** `run()`: materialise the first entry if idle; run the live command while the index is inside the program, else reset. */
  function Tick(d: Draft, s: CommandLib.Sensors, now: real): (r: (Draft, bool))
    requires s.InRange() && Settled(d)
    ensures r.0.queue == d.queue
  {
    var d1 := if d.idx < 0 && |d.queue| > 0 then NextEntry(d.(idx := 0)) else d;
    if d1.idx < |d1.queue| then
      var called := Invoke(d1, s, now);
      (called.0.(left := Numeric.Clean(called.1.left), right := Numeric.Clean(called.1.right)), true)
    else (d1.(idx := -1, command := Blank), false)
  }

  // ---------------------------------------------------------------------
  // What the scheduler guarantees
  // ---------------------------------------------------------------------

  /** A run leaves the scheduler settled again. */
  lemma TickSettles(d: Draft, s: CommandLib.Sensors, now: real)
    requires s.InRange() && Settled(d)
    ensures Settled(Tick(d, s, now).0)
  {
  }

  /**
   * A run answers true while the index (after materialising the first
   * entry) is inside the program, and then stores the cleaned outputs,
   * which lie in [-1, 1] with two decimals.  Otherwise it answers false,
   * resets the index to -1 and the live command to `blank`, and keeps the
   * last outputs.
   */
  lemma RunOutcome(d: Draft, s: CommandLib.Sensors, now: real)
    requires s.InRange() && Settled(d)
    ensures var d1 := if d.idx < 0 && |d.queue| > 0 then NextEntry(d.(idx := 0)) else d;
      var r := Tick(d, s, now);
      && (r.1 <==> d1.idx < |d.queue|)
      && (r.1 ==> -1.0 <= r.0.left <= 1.0 && -1.0 <= r.0.right <= 1.0)
      && (r.1 ==> Numeric.Quantized(r.0.left) && Numeric.Quantized(r.0.right))
      && (!r.1 ==> r.0 == d1.(idx := -1, command := Blank))
  {
  }

  /**
   * A run that answers true stores `cleanOut` of the live command's output
   * (the command of the first entry on the first run): the two-decimal cut
   * when the output is in range, and -1 or 1 when it is beyond.
   */
  lemma RunStoresCleanedOutput(d: Draft, s: CommandLib.Sensors, now: real)
    requires s.InRange() && Settled(d)
    ensures var d1 := if d.idx < 0 && |d.queue| > 0 then NextEntry(d.(idx := 0)) else d;
      var r := Tick(d, s, now);
      d1.idx < |d.queue| ==>
        var w := Invoke(d1, s, now).1;
        && r.1
        && r.0.left == Numeric.Clean(w.left) && r.0.right == Numeric.Clean(w.right)
        && (-1.0 <= w.left <= 1.0 ==> r.0.left == Numeric.Trunc2(w.left))
        && (-1.0 <= w.right <= 1.0 ==> r.0.right == Numeric.Trunc2(w.right))
  {
  }

  /** A sharp `drive(-3)` returns (1, -3) and the run stores (1, -1). */
  lemma SharpDriveIsClamped(d: Draft, s: CommandLib.Sensors, now: real)
    requires s.InRange() && Settled(d) && 0 <= d.idx < |d.queue|
    requires d.command.Live? && d.command.maker == Drive(-3.0)
    requires !PollTrigger(d.command.trigger, s, now).fired
    ensures Tick(d, s, now) == (d.(command := Live(Drive(-3.0), PollTrigger(d.command.trigger, s, now).after), left := 1.0, right := -1.0), true)
  {
    assert Numeric.Trunc(1.0 * 100.0) == 100;
  }

  /**
   * The first run of a program of two or more entries materialises entry 0
   * and leaves the index at 1, or at 2 when entry 0's trigger fired on
   * that very first poll (its `next` then materialised entry 1 at once).
   */
  lemma FirstRun(d: Draft, s: CommandLib.Sensors, now: real)
    requires s.InRange() && Settled(d) && d.idx == -1 && |d.queue| >= 2
    ensures var e := d.queue[0];
      var fired := Polls(e.command, s) && PollTrigger(MakeTrigger(e.trigger), s, now).fired;
      var r := Tick(d, s, now);
      && r.1
      && (!fired ==> r.0.idx == 1 && r.0.command.maker == e.command)
      && (fired ==> r.0.idx == 2 && r.0.command == Materialise(d.queue[1]))
  {
  }

  /**
   * A trigger's `next` replaces the live command and advances the index by
   * exactly one, during the call of the command that polled it; when the
   * trigger does not fire, the same command stays live with its latch
   * updated.
   */
  lemma NextReentersNextCommand(d: Draft, s: CommandLib.Sensors, now: real)
    requires s.InRange() && 1 <= d.idx < |d.queue| && d.command.Live?
    ensures var c := d.command;
      var fired := Polls(c.maker, s) && PollTrigger(c.trigger, s, now).fired;
      var r := Invoke(d, s, now).0;
      && (fired ==> r.idx == d.idx + 1 && r.command == Materialise(d.queue[d.idx]))
      && (!fired ==> r.idx == d.idx && r.command.Live? && r.command.maker == c.maker)
      && Invoke(d, s, now).1 == Output(c.maker, s, fired)
  {
  }

  /** Once materialised, the index moves forward by at most one entry per run. */
  lemma RunAdvancesByOne(d: Draft, s: CommandLib.Sensors, now: real)
    requires s.InRange() && Settled(d) && d.idx >= 1
    ensures var r := Tick(d, s, now);
      r.1 ==> r.0.idx == d.idx || r.0.idx == d.idx + 1
  {
  }

  /**
   * The last entry is materialised but never called: once the index has
   * reached the end of the program, the next run resets without calling
   * any command.
   */
  lemma LastEntryNeverRuns(d: Draft, s: CommandLib.Sensors, now: real)
    requires s.InRange() && Settled(d) && 1 <= d.idx == |d.queue|
    ensures Tick(d, s, now) == (d.(idx := -1, command := Blank), false)
  {
  }

  /** With an empty program a run calls `blank`: zero output, answer true. */
  lemma EmptyProgramRuns(d: Draft, s: CommandLib.Sensors, now: real)
    requires s.InRange() && Settled(d) && |d.queue| == 0
    ensures Tick(d, s, now) == (d.(left := 0.0, right := 0.0), true)
  {
  }

  /** One host frame: the sensor snapshot and the wall-clock time. */
  datatype Frame = Frame(sensors: CommandLib.Sensors, now: real)

  ghost predicate SaneFrames(frames: seq<Frame>) {
    forall k :: 0 <= k < |frames| ==> frames[k].sensors.InRange()
  }

  /** The answers of calling `run` once per frame. */
  function RunFrames(d: Draft, frames: seq<Frame>): (r: seq<bool>)
    requires Settled(d) && SaneFrames(frames)
    ensures |r| == |frames|
    decreases |frames|
  {
    if frames == [] then []
    else
      TickSettles(d, frames[0].sensors, frames[0].now);
      var ran := Tick(d, frames[0].sensors, frames[0].now);
      [ran.1] + RunFrames(ran.0, frames[1..])
  }

  /** An empty program never finishes: every run answers true. */
  lemma {:induction false} EmptyProgramNeverFinishes(d: Draft, frames: seq<Frame>)
    requires Settled(d) && SaneFrames(frames) && |d.queue| == 0
    ensures forall k :: 0 <= k < |frames| ==> RunFrames(d, frames)[k]
    decreases |frames|
  {
    if frames != [] {
      EmptyProgramRuns(d, frames[0].sensors, frames[0].now);
      var next := d.(left := 0.0, right := 0.0);
      assert SaneFrames(frames[1..]) by {
        forall k | 0 <= k < |frames| - 1 ensures frames[1..][k].sensors.InRange() {
          assert frames[1..][k] == frames[k + 1];
        }
      }
      EmptyProgramNeverFinishes(next, frames[1..]);
      var r := RunFrames(d, frames);
      forall k | 0 <= k < |frames| ensures r[k] {
        if k > 0 {
          assert r[k] == RunFrames(next, frames[1..])[k - 1];
        }
      }
    }
  }

  /**
   * A program of n entries answers false on some run only after entry n-1
   * has been materialised: the answer false comes exactly when the index
   * was at the end.
   */
  lemma FalseOnlyAtEnd(d: Draft, s: CommandLib.Sensors, now: real)
    requires s.InRange() && Settled(d)
    ensures !Tick(d, s, now).1 ==> d.idx == |d.queue| >= 1 || (d.idx == -1 && |d.queue| == 1)
  {
  }

  // ---------------------------------------------------------------------
  // The vehicle object
  // ---------------------------------------------------------------------

  /** The draft `AutoTraceVehicle`: the fields the scheduler updates in place. */
  class DraftVehicle {
    const can: CommandLib.Luminance
    var queue: seq<Entry>
    var idx: int
    var command: Current
    var left: real
    var right: real

    function State(): Draft
      reads this
    {
      Draft(queue, idx, command, left, right)
    }

    /** A vehicle reading `can` and holding `queue` (the source installs a fixed program here). */
    constructor (can: CommandLib.Luminance, queue: seq<Entry>)
      ensures this.can == can && State() == Initial(queue)
    {
      this.can := can;
      this.queue := queue;
      idx := -1;
      command := Blank;
      left, right := 0.0, 0.0;
    }

    /** `nextCommand()`; see `NextCommand`. */
    method NextCommand()
      requires 0 <= idx < |queue|
      modifies this
      ensures State() == NextEntry(old(State()))
    {
      var entry := queue[idx];
      command := Live(entry.command, MakeTrigger(entry.trigger));
      idx := idx + 1;
    }

    /** Calling the live command, re-entering `nextCommand` when its trigger fires; see `Invoke`. */
    method CallCommand(now: real) returns (out: CommandLib.Wheels)
      requires can.Keys().InRange() && idx < |queue| && (command.Live? ==> 0 <= idx)
      modifies this
      ensures (State(), out) == Invoke(old(State()), can.Keys(), now)
    {
      var s := can.Keys();
      match command
      case Blank =>
        out := CommandLib.Wheels(0.0, 0.0);
      case Live(c, t) =>
        var fired := false;
        if Polls(c, s) {
          var p := PollTrigger(t, s, now);
          command := Live(c, p.after);
          fired := p.fired;
          if fired {
            NextCommand();
          }
        }
        out := Output(c, s, fired);
    }

    /** `run()` at wall-clock time `now`; see `Run`. */
    method Run(now: real) returns (more: bool)
      requires can.Keys().InRange() && Settled(State())
      modifies this
      ensures (State(), more) == Tick(old(State()), can.Keys(), now)
      ensures Settled(State())
    {
      ghost var d0 := State();
      TickSettles(d0, can.Keys(), now);
      if idx < 0 && |queue| > 0 {
        idx := 0;
        NextCommand();
      }
      if idx < |queue| {
        var out := CallCommand(now);
        left := Numeric.Clean(out.left);
        right := Numeric.Clean(out.right);
        more := true;
      } else {
        idx := -1;
        command := Blank;
        more := false;
      }
    }
  }
}
