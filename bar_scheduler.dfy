/**
 * The command-bar scheduler (`AutoTraceVehicle` of the car page).
 *
 * A program is a queue of entries; each entry is one unit or a list of
 * units, and a unit pairs one or more command makers with an optional
 * trigger maker.  The scheduler materialises one entry at a time into a
 * "bar" of live commands, runs every live command once per tick, and moves
 * on once every real trigger of the bar has fired.
 *
 * The module has two layers.  The functions on `Sched` are the scheduler's
 * meaning, one function per operation, and the lemmas below them state
 * what the scheduler guarantees.  The class `AutoTraceVehicle` is the
 * scheduler as the source writes it, with fields updated in place and
 * loops over the bar, and each of its methods is proved to compute exactly
 * the corresponding function.
 */
module BarScheduler {
  import opened Numeric
  import opened CommandLib

  // ---------------------------------------------------------------------
  // Program entries as run-time values
  // ---------------------------------------------------------------------

  /**
   * A program entry as the JavaScript value the scheduler receives: the
   * scheduler tells a single unit from a list of units by looking at it.
   */
  datatype Value =
    | Undefined
    | Null
    | CommandFn(command: CommandMaker)
    | TriggerFn(trigger: TriggerMaker)
    | Arr(items: seq<Value>)

  predicate IsFunction(v: Value) {
    v.CommandFn? || v.TriggerFn?
  }

  /** Everything but `undefined` and `null` is truthy here (there are no numbers or strings among entries). */
  predicate Truthy(v: Value) {
    !v.Undefined? && !v.Null?
  }

  /** `items[k]`, which is `undefined` past the end. */
  function ElementAt(items: seq<Value>, k: nat): Value {
    if k < |items| then items[k] else Undefined
  }

  /** The `TypeError`s materialising a malformed entry raises. */
  datatype Fault =
    | NotIterable        // destructuring or iterating something that is not an array
    | NotAFunction       // calling something that is not a function
    | NotATriggerMaker   // a command maker where a trigger maker belongs
    | NotACommandMaker   // a trigger maker where a command maker belongs

  datatype Result<+T> = Ok(value: T) | Err(fault: Fault)

  /** A unit after `parseCommandBarMakerUnit`: its command makers (still unchecked) and its trigger maker, if any. */
  datatype UnitSpec = UnitSpec(makers: seq<Value>, trigger: Option<TriggerMaker>)

  /** `parseCommandBarMakerUnit`: destructure `[cmdmkr, trigmkr]`. */
  function ParseUnit(v: Value): (r: Result<UnitSpec>)
    ensures r.Ok? ==> v.Arr? && 1 <= |v.items|
    ensures r.Ok? ==> (r.value.trigger.Some? <==> ElementAt(v.items, 1).TriggerFn?)
  {
    if !v.Arr? then Err(NotIterable)
    else
      var cmdmkr := ElementAt(v.items, 0);
      var trigmkr := ElementAt(v.items, 1);
      if Truthy(trigmkr) && !trigmkr.TriggerFn? then
        Err(if trigmkr.CommandFn? then NotATriggerMaker else NotAFunction)
      else
        var trig := if trigmkr.TriggerFn? then Some(trigmkr.trigger) else None;
        if IsFunction(cmdmkr) then Ok(UnitSpec([cmdmkr], trig))
        else if cmdmkr.Arr? then Ok(UnitSpec(cmdmkr.items, trig))
        else Err(NotIterable)
  }

  /** Parsing a list of units, in order, stopping at the first that throws. */
  function ParseUnits(vs: seq<Value>): (r: Result<seq<UnitSpec>>)
    ensures r.Ok? <==> forall k :: 0 <= k < |vs| ==> ParseUnit(vs[k]).Ok?
    ensures r.Ok? ==> |r.value| == |vs|
    ensures r.Ok? ==> forall k :: 0 <= k < |vs| ==> r.value[k] == ParseUnit(vs[k]).value
  {
    if vs == [] then Ok([])
    else
      match ParseUnits(vs[..|vs| - 1])
      case Err(f) => Err(f)
      case Ok(us) =>
        match ParseUnit(vs[|vs| - 1])
        case Err(f) => Err(f)
        case Ok(u) => Ok(us + [u])
  }

  /** Parsing stops at the first unit that throws, and its error is the one reported. */
  lemma {:induction false} ParseUnitsFirstFault(vs: seq<Value>, k: nat)
    requires k < |vs| && ParseUnits(vs[..k]).Ok? && ParseUnit(vs[k]).Err?
    ensures ParseUnits(vs) == Err(ParseUnit(vs[k]).fault)
    decreases |vs|
  {
    if k < |vs| - 1 {
      var pre := vs[..|vs| - 1];
      assert pre[..k] == vs[..k] && pre[k] == vs[k];
      ParseUnitsFirstFault(pre, k);
    } else {
      assert vs[..|vs| - 1] == vs[..k];
    }
  }

  /** The source's test for a single unit: length 2 and a function in second place. */
  predicate IsSingleUnit(e: Value) {
    e.Arr? && |e.items| == 2 && IsFunction(e.items[1])
  }

  /**
   * An entry taken for a single unit, if it parses, carries a trigger maker:
   * its second element is a function and must be one.
   */
  lemma SingleUnitHasTrigger(e: Value)
    requires IsSingleUnit(e) && ParseUnit(e).Ok?
    ensures ParseUnit(e).value.trigger.Some?
    ensures ParseEntry(e) == Ok([ParseUnit(e).value])
  {
  }

  /** The units an entry is read as: itself when it is a single unit, its elements otherwise. */
  function UnitValues(e: Value): seq<Value>
    requires e.Arr?
  {
    if IsSingleUnit(e) then [e] else e.items
  }

  /** Normalising an entry into its list of units. */
  function ParseEntry(e: Value): (r: Result<seq<UnitSpec>>)
    ensures !e.Arr? ==> r == Err(NotIterable)
    ensures r.Ok? && IsSingleUnit(e) ==> ParseUnit(e).Ok? && r.value == [ParseUnit(e).value]
    ensures r.Ok? && !IsSingleUnit(e) ==> |r.value| == |e.items|
  {
    if !e.Arr? then Err(NotIterable) else ParseUnits(UnitValues(e))
  }

  // ---------------------------------------------------------------------
  // Program entries as the typed program writes them
  // ---------------------------------------------------------------------

  /** `CommandMaker | CommandMaker[]` */
  datatype CommandSet = One(maker: CommandMaker) | Many(makers: seq<CommandMaker>)

  /** `CommandBarMakerUnit = [CommandMaker | CommandMaker[], TriggerMaker?]` */
  datatype Unit = Unit(commands: CommandSet, trigger: Option<TriggerMaker>)

  /** `CommandBarMaker = CommandBarMakerUnit | CommandBarMakerUnit[]` */
  datatype Entry = Single(unit: Unit) | Parallel(units: seq<Unit>)

  function EncodeCommands(c: CommandSet): Value {
    match c
    case One(m) => CommandFn(m)
    case Many(ms) => Arr(seq(|ms|, j requires 0 <= j < |ms| => CommandFn(ms[j])))
  }

  /** The array literal a program table holds for a unit; a missing trigger maker is simply left off. */
  function EncodeUnit(u: Unit): Value {
    if u.trigger.Some? then Arr([EncodeCommands(u.commands), TriggerFn(u.trigger.value)])
    else Arr([EncodeCommands(u.commands)])
  }

  function Encode(e: Entry): Value {
    match e
    case Single(u) => EncodeUnit(u)
    case Parallel(us) => Arr(seq(|us|, k requires 0 <= k < |us| => EncodeUnit(us[k])))
  }

  function Makers(c: CommandSet): seq<CommandMaker> {
    match c
    case One(m) => [m]
    case Many(ms) => ms
  }

  /** The parsed form the typed unit stands for. */
  function SpecOf(u: Unit): UnitSpec {
    var ms := Makers(u.commands);
    UnitSpec(seq(|ms|, j requires 0 <= j < |ms| => CommandFn(ms[j])), u.trigger)
  }

  function UnitsOf(e: Entry): seq<Unit> {
    match e
    case Single(u) => [u]
    case Parallel(us) => us
  }

  /** A typed unit parses back to exactly what it stands for. */
  lemma ParseEncodedUnit(u: Unit)
    ensures ParseUnit(EncodeUnit(u)) == Ok(SpecOf(u))
  {
    var v := EncodeUnit(u);
    var c := EncodeCommands(u.commands);
    assert ElementAt(v.items, 0) == c;
    assert ElementAt(v.items, 1) == if u.trigger.Some? then TriggerFn(u.trigger.value) else Undefined;
    if u.commands.Many? {
      assert c.items == SpecOf(u).makers;
    } else {
      assert [c] == SpecOf(u).makers;
    }
  }

  /**
   * Every typed entry is read as the units it lists, in order, except a
   * single unit without a trigger maker (see `TriggerlessSingleUnit`).
   */
  lemma ParseEncodedEntry(e: Entry)
    requires e.Parallel? || e.unit.trigger.Some?
    ensures ParseEntry(Encode(e)).Ok?
    ensures ParseEntry(Encode(e)).value == seq(|UnitsOf(e)|, k requires 0 <= k < |UnitsOf(e)| => SpecOf(UnitsOf(e)[k]))
  {
    var vs := UnitValues(Encode(e));
    assert |vs| == |UnitsOf(e)|;
    forall k | 0 <= k < |vs|
      ensures vs[k] == EncodeUnit(UnitsOf(e)[k])
    {
    }
    forall k | 0 <= k < |vs|
      ensures ParseUnit(vs[k]) == Ok(SpecOf(UnitsOf(e)[k]))
    {
      ParseEncodedUnit(UnitsOf(e)[k]);
    }
  }

  /**
   * A single unit written without a trigger maker has length 1, so it is
   * read as a list of units: a lone command maker throws, a list of two or
   * more command makers has its second maker taken as a trigger maker, and
   * only a one-maker list happens to come out right.
   */
  lemma TriggerlessSingleUnit(u: Unit)
    requires u.trigger.None?
    ensures !IsSingleUnit(Encode(Single(u)))
    ensures u.commands.One? ==> ParseEntry(Encode(Single(u))) == Err(NotIterable)
    ensures u.commands.Many? && |u.commands.makers| == 0 ==> ParseEntry(Encode(Single(u))) == Err(NotIterable)
    ensures u.commands.Many? && |u.commands.makers| >= 2 ==> ParseEntry(Encode(Single(u))) == Err(NotATriggerMaker)
    ensures u.commands.Many? && |u.commands.makers| == 1 ==> ParseEntry(Encode(Single(u))) == Ok([SpecOf(u)])
  {
    var vs := UnitValues(Encode(Single(u)));
    assert vs == [EncodeCommands(u.commands)];
    assert vs[..|vs| - 1] == [];
    if u.commands.Many? && |u.commands.makers| == 1 {
      var inner := EncodeCommands(u.commands).items;
      assert inner == [CommandFn(u.commands.makers[0])] == SpecOf(u).makers;
      assert ElementAt(vs[0].items, 0) == inner[0];
      assert ParseUnit(vs[0]) == Ok(SpecOf(u));
      assert [] + [SpecOf(u)] == [SpecOf(u)];
    }
  }

  // ---------------------------------------------------------------------
  // Scheduler state
  // ---------------------------------------------------------------------

  /** A slot of the live command list: the `blank` no-op, or the wrapper around a command built for unit `unit` of the bar. */
  datatype Live = Blank | Wrapped(maker: CommandMaker, unit: nat)

  /** A unit's live trigger and its completion slot; the `() => false` placeholder has no slot. */
  datatype BarTrigger = BarTrigger(trig: Trigger, slot: Option<nat>)

  /**
   * Everything the scheduler keeps: the program, the index of the next
   * entry to materialise, the live commands, the bars already replaced, the
   * deferred "next bar" flag, the completion slots and live triggers of the
   * current bar, the tick counter and the output accumulator's contents.
   */
  datatype Sched = Sched(
    queue: seq<Value>,
    idx: int,
    commands: seq<Live>,
    processed: seq<seq<Live>>,
    assignNext: bool,
    complete: seq<bool>,
    triggers: seq<BarTrigger>,
    tick: real,
    out: Param)

  /** Every live command names an existing unit; a unit has a completion slot exactly when it has a real trigger. */
  ghost predicate WellFormed(s: Sched) {
    BarWellFormed(s.commands, s.triggers, s.complete)
  }

  ghost predicate BarWellFormed(commands: seq<Live>, triggers: seq<BarTrigger>, complete: seq<bool>) {
    && (forall i :: 0 <= i < |commands| && commands[i].Wrapped? ==> commands[i].unit < |triggers|)
    && (forall u :: 0 <= u < |triggers| ==> (triggers[u].slot.None? <==> triggers[u].trig.Never?))
    && (forall u :: 0 <= u < |triggers| && triggers[u].slot.Some? ==> triggers[u].slot.value < |complete|)
  }

  /** The state the constructor builds: idle (index -1), nothing live, tick 0. */
  function Initial(queue: seq<Value>): (s: Sched)
    ensures WellFormed(s) && Clamped(s.out)
  {
    Sched(queue, -1, [], [], false, [], [], 0.0, ZeroParam)
  }

  /** `queue[idx]`, which is `undefined` outside the queue. */
  function EntryAt(queue: seq<Value>, idx: int): (e: Value)
    ensures 0 <= idx < |queue| ==> e == queue[idx]
    ensures !(0 <= idx < |queue|) ==> ParseEntry(e) == Err(NotIterable)
  {
    if 0 <= idx < |queue| then queue[idx] else Undefined
  }

  // ---------------------------------------------------------------------
  // Materialising a bar
  // ---------------------------------------------------------------------

  /** The number of units that come with a trigger maker. */
  function CountTriggers(us: seq<UnitSpec>): nat {
    if us == [] then 0
    else CountTriggers(us[..|us| - 1]) + (if us[|us| - 1].trigger.Some? then 1 else 0)
  }

  /** A unit's live trigger: a fresh one in the next free slot, or the placeholder. */
  function UnitTrigger(u: UnitSpec, nextSlot: nat): BarTrigger {
    if u.trigger.Some? then BarTrigger(Make(u.trigger.value), Some(nextSlot)) else BarTrigger(Never, None)
  }

  /**
   * The bar's triggers: each unit with a trigger maker gets a fresh trigger
   * and its own completion slot, numbered in unit order from 0; a unit
   * without one gets the placeholder and no slot.
   */
  function BarTriggers(us: seq<UnitSpec>): (r: seq<BarTrigger>)
    ensures |r| == |us|
    ensures forall k :: 0 <= k < |us| ==> (r[k].slot.Some? <==> us[k].trigger.Some?)
    ensures forall k :: 0 <= k < |us| ==>
      r[k].trig == if us[k].trigger.Some? then Make(us[k].trigger.value) else Never
    ensures forall k :: 0 <= k < |us| && r[k].slot.Some? ==> r[k].slot.value < CountTriggers(us)
    ensures forall j, k :: 0 <= j < k < |us| && r[j].slot.Some? && r[k].slot.Some? ==>
      r[j].slot.value < r[k].slot.value
  {
    if us == [] then []
    else
      var pre := us[..|us| - 1];
      BarTriggers(pre) + [UnitTrigger(us[|us| - 1], CountTriggers(pre))]
  }

  /** `n` completion slots, none of them complete. */
  function Falses(n: nat): (r: seq<bool>)
    ensures |r| == n && forall k :: 0 <= k < n ==> !r[k]
    ensures n > 0 <==> false in r
  {
    var r := seq(n, _ => false);
    assert n > 0 ==> r[0] == false;
    r
  }

  /** A unit's command makers, each tagged with the unit's index. */
  function Tagged(ms: seq<Value>, u: nat): (r: seq<(Value, nat)>)
    ensures |r| == |ms| && forall j :: 0 <= j < |ms| ==> r[j] == (ms[j], u)
  {
    seq(|ms|, j requires 0 <= j < |ms| => (ms[j], u))
  }

  /** All command makers of the bar in the order they are built, each tagged with its unit. */
  function Flat(us: seq<UnitSpec>): (r: seq<(Value, nat)>)
    ensures forall j :: 0 <= j < |r| ==> r[j].1 < |us|
  {
    if us == [] then []
    else Flat(us[..|us| - 1]) + Tagged(us[|us| - 1].makers, |us| - 1)
  }

  /** The total number of command makers over all units. */
  function TotalMakers(us: seq<UnitSpec>): nat {
    if us == [] then 0 else TotalMakers(us[..|us| - 1]) + |us[|us| - 1].makers|
  }

  /** How many makers, from the front, really are command makers; building throws at the first that is not. */
  function GoodPrefix(fs: seq<(Value, nat)>): (n: nat)
    ensures n <= |fs|
    ensures forall j :: 0 <= j < n ==> fs[j].0.CommandFn?
    ensures n < |fs| ==> !fs[n].0.CommandFn?
  {
    if fs == [] then 0
    else if fs[0].0.CommandFn? then 1 + GoodPrefix(fs[1..])
    else 0
  }

  /** The live command a tagged maker is wrapped into. */
  function ToLive(f: (Value, nat)): Live {
    if f.0.CommandFn? then Wrapped(f.0.command, f.1) else Blank
  }

  /** The wrapped commands built before building stops. */
  function WrapAll(fs: seq<(Value, nat)>): (r: seq<Live>)
    ensures |r| == GoodPrefix(fs)
    ensures forall j :: 0 <= j < |r| ==> r[j] == Wrapped(fs[j].0.command, fs[j].1)
  {
    seq(GoodPrefix(fs), j requires 0 <= j < GoodPrefix(fs) => ToLive(fs[j]))
  }

  /**
   * `assignNextCommandBar`: read `queue[idx]`, then advance `idx`, then
   * materialise the entry.  The answer is false when the source throws: a
   * malformed entry throws while being parsed, before anything but `idx`
   * has changed; a non-function among the command makers throws while the
   * commands are built, after the old bar was filed in `processed`.
   */
  function AssignBar(s: Sched): (r: (Sched, bool))
    ensures r.0.idx == s.idx + 1
    ensures r.0.queue == s.queue && r.0.tick == s.tick && r.0.out == s.out && r.0.assignNext == s.assignNext
    ensures WellFormed(s) ==> WellFormed(r.0)
    ensures ParseEntry(EntryAt(s.queue, s.idx)).Err? ==> !r.1 && r.0 == s.(idx := s.idx + 1)
    ensures ParseEntry(EntryAt(s.queue, s.idx)).Ok? ==>
      var us := ParseEntry(EntryAt(s.queue, s.idx)).value;
      && r.0.processed == s.processed + [s.commands]
      && r.0.complete == Falses(CountTriggers(us))
      && r.0.triggers == BarTriggers(us)
      && (r.1 ==> |r.0.commands| == TotalMakers(us))
  {
    var s1 := s.(idx := s.idx + 1);
    match ParseEntry(EntryAt(s.queue, s.idx))
    case Err(_) => (s1, false)
    case Ok(us) =>
      var fs := Flat(us);
      FlatLength(us);
      (s1.(processed := s.processed + [s.commands],
           commands := WrapAll(fs),
           complete := Falses(CountTriggers(us)),
           triggers := BarTriggers(us)),
       GoodPrefix(fs) == |fs|)
  }

  /**
   * The bar built from an entry that parses: building succeeds exactly when
   * every maker of every unit is a command maker, and then there is one
   * command per maker.
   */
  lemma AssignBarOk(s: Sched, us: seq<UnitSpec>)
    requires ParseEntry(EntryAt(s.queue, s.idx)) == Ok(us)
    ensures AssignBar(s).1 <==> forall j :: 0 <= j < |Flat(us)| ==> Flat(us)[j].0.CommandFn?
    ensures AssignBar(s).1 ==> |AssignBar(s).0.commands| == TotalMakers(us)
  {
    AssignBarBuilds(s, us);
    AllCommandMakers(Flat(us));
    FlatLength(us);
  }

  /**
   * Where a maker lands when building succeeds: command `j` of unit `u` is
   * a command maker, and it sits, wrapped with its unit, right after the
   * makers of the units before `u`.
   */
  lemma AssignBarPlaces(s: Sched, us: seq<UnitSpec>, u: nat, j: nat)
    requires ParseEntry(EntryAt(s.queue, s.idx)) == Ok(us) && AssignBar(s).1
    requires u < |us| && j < |us[u].makers|
    ensures us[u].makers[j].CommandFn?
    ensures |Flat(us[..u])| + j < |AssignBar(s).0.commands|
    ensures AssignBar(s).0.commands[|Flat(us[..u])| + j] == Wrapped(us[u].makers[j].command, u)
  {
    AssignBarBuilds(s, us);
    var fs := Flat(us);
    AllCommandMakers(fs);
    FlatAt(us, u, j);
    var k := |Flat(us[..u])| + j;
    assert fs[k].0.CommandFn?;
    assert WrapAll(fs)[k] == Wrapped(fs[k].0.command, fs[k].1);
  }

  /** The answer and the commands `AssignBar` gives for an entry that parses. */
  lemma AssignBarBuilds(s: Sched, us: seq<UnitSpec>)
    requires ParseEntry(EntryAt(s.queue, s.idx)) == Ok(us)
    ensures AssignBar(s).1 == (GoodPrefix(Flat(us)) == |Flat(us)|)
    ensures AssignBar(s).0.commands == WrapAll(Flat(us))
  {
  }

  /** Building gets through all the makers exactly when every one of them is a command maker. */
  lemma AllCommandMakers(fs: seq<(Value, nat)>)
    ensures GoodPrefix(fs) == |fs| <==> forall j :: 0 <= j < |fs| ==> fs[j].0.CommandFn?
  {
    if GoodPrefix(fs) < |fs| {
      assert !fs[GoodPrefix(fs)].0.CommandFn?;
    }
  }

  /** A freshly built bar is well formed. */
  lemma AssignBarWellFormed(us: seq<UnitSpec>)
    ensures BarWellFormed(WrapAll(Flat(us)), BarTriggers(us), Falses(CountTriggers(us)))
  {
  }

  lemma {:induction false} FlatLength(us: seq<UnitSpec>)
    ensures |Flat(us)| == TotalMakers(us)
  {
    if us != [] {
      FlatLength(us[..|us| - 1]);
    }
  }

  /** Flattening a prefix of the units gives a prefix of the flattened bar. */
  lemma {:induction false} FlatPrefix(us: seq<UnitSpec>, m: nat)
    requires m <= |us|
    ensures |Flat(us[..m])| <= |Flat(us)| && Flat(us[..m]) == Flat(us)[..|Flat(us[..m])|]
    decreases |us|
  {
    if m < |us| {
      var pre := us[..|us| - 1];
      assert pre[..m] == us[..m];
      FlatPrefix(pre, m);
    } else {
      assert us[..m] == us;
    }
  }

  /** Where maker `j` of unit `u` lands in the flattened bar. */
  lemma FlatAt(us: seq<UnitSpec>, u: nat, j: nat)
    requires u < |us| && j < |us[u].makers|
    ensures |Flat(us[..u])| + j < |Flat(us)|
    ensures Flat(us)[|Flat(us[..u])| + j] == (us[u].makers[j], u)
  {
    var next := us[..u + 1];
    assert next[..|next| - 1] == us[..u];
    assert Flat(next) == Flat(us[..u]) + Tagged(us[u].makers, u);
    FlatPrefix(us, u + 1);
  }

  /** After unit `u`, flattening has reached exactly the end of that unit's makers. */
  lemma FlatNext(us: seq<UnitSpec>, u: nat)
    requires u < |us|
    ensures |Flat(us[..u + 1])| == |Flat(us[..u])| + |us[u].makers|
  {
    var next := us[..u + 1];
    assert next[..|next| - 1] == us[..u];
  }

  // ---------------------------------------------------------------------
  // Running the live commands
  // ---------------------------------------------------------------------

  /** `nextCount(slot)`: mark the slot complete; once no slot is false, ask for the next bar. */
  function NextCount(s: Sched, slot: Option<nat>): (r: Sched)
    ensures r.(complete := s.complete, assignNext := s.assignNext) == s
    ensures |r.complete| == |s.complete|
    ensures slot.Some? && slot.value < |s.complete| ==> r.complete[slot.value]
    ensures forall k :: 0 <= k < |s.complete| && Some(k) != slot ==> r.complete[k] == s.complete[k]
    ensures r.assignNext == (s.assignNext || (slot.Some? && slot.value < |s.complete| && false !in r.complete))
  {
    if slot.None? || slot.value >= |s.complete| then s  // a slot outside the bar: never the case in a well-formed state
    else
      var c := s.complete[slot.value := true];
      s.(complete := c, assignNext := if false in c then s.assignNext else true)
  }

  /**
   * `rmCmdTrig`, the wrapper the command in slot `i` sees as its trigger:
   * poll unit `u`'s trigger; when it fires, its `next` marks the unit's
   * slot and the command's own slot becomes `blank`.
   */
  function RmCmdTrig(s: Sched, sensors: Sensors, i: nat, u: nat): (r: (bool, Sched))
    requires i < |s.commands| && u < |s.triggers|
    ensures r.0 == PollTrigger(s.triggers[u].trig, sensors, s.tick).fired
    ensures r.1.out == s.out
    ensures |r.1.complete| == |s.complete|
    ensures forall k :: 0 <= k < |s.complete| ==>
      (r.1.complete[k] <==> s.complete[k] || (r.0 && s.triggers[u].slot == Some(k)))
    ensures r.1.assignNext == (s.assignNext || (r.0 && s.triggers[u].slot.Some?
      && s.triggers[u].slot.value < |s.complete| && false !in r.1.complete))
    ensures r.1.commands == if r.0 then s.commands[i := Blank] else s.commands
  {
    var bt := s.triggers[u];
    var p := PollTrigger(bt.trig, sensors, s.tick);
    var s1 := s.(triggers := s.triggers[u := bt.(trig := p.after)]);
    if p.fired then (true, NextCount(s1, bt.slot).(commands := s1.commands[i := Blank]))
    else (false, s1)
  }

  /** Running the live command in slot `i` once. */
  function ExecAt(s: Sched, sensors: Sensors, i: nat): (r: Sched)
    requires sensors.InRange() && i < |s.commands|
    ensures r.queue == s.queue && r.idx == s.idx && r.processed == s.processed && r.tick == s.tick
    ensures |r.commands| == |s.commands| && |r.complete| == |s.complete| && |r.triggers| == |s.triggers|
  {
    match s.commands[i]
    case Blank => s
    case Wrapped(c, u) =>
      if u >= |s.triggers| then s  // a unit outside the bar: never the case in a well-formed state
      else
      var polled := if PollsTrigger(c, sensors) then RmCmdTrig(s, sensors, i, u) else (false, s);
      polled.1.(out := ApplyEffect(CommandEffect(c, sensors, polled.0), polled.1.out))
  }

  /** Running the live commands in slots 0 .. n-1, in order. */
  function ExecUpTo(s: Sched, sensors: Sensors, n: nat): (r: Sched)
    requires sensors.InRange() && n <= |s.commands|
    ensures r.queue == s.queue && r.idx == s.idx && r.processed == s.processed && r.tick == s.tick
    ensures |r.commands| == |s.commands| && |r.complete| == |s.complete| && |r.triggers| == |s.triggers|
  {
    if n == 0 then s else ExecAt(ExecUpTo(s, sensors, n - 1), sensors, n - 1)
  }

  /** Running one command keeps every live command pointing at a unit and every slot inside the bar. */
  lemma ExecAtWellFormed(s: Sched, sensors: Sensors, i: nat)
    requires WellFormed(s) && sensors.InRange() && i < |s.commands|
    ensures WellFormed(ExecAt(s, sensors, i))
  {
  }

  /** A pass over the first `n` slots keeps the state well formed. */
  lemma {:induction false} ExecUpToWellFormed(s: Sched, sensors: Sensors, n: nat)
    requires WellFormed(s) && sensors.InRange() && n <= |s.commands|
    ensures WellFormed(ExecUpTo(s, sensors, n))
  {
    if n > 0 {
      var t := ExecUpTo(s, sensors, n - 1);
      ExecUpToWellFormed(s, sensors, n - 1);
      ExecAtWellFormed(t, sensors, n - 1);
      assert ExecUpTo(s, sensors, n) == ExecAt(t, sensors, n - 1);
    }
  }

  /**
   * Running one command touches only that command's slot, which either
   * stays or becomes `blank`, and a `blank` slot does nothing at all.
   */
  lemma ExecAtSlots(s: Sched, sensors: Sensors, i: nat)
    requires sensors.InRange() && i < |s.commands|
    ensures var r := ExecAt(s, sensors, i);
      && (forall j :: 0 <= j < |s.commands| && j != i ==> r.commands[j] == s.commands[j])
      && (r.commands[i] == s.commands[i] || r.commands[i] == Blank)
      && (s.commands[i] == Blank ==> r == s)
  {
  }

  /** Running one command never withdraws a completion mark or the "next bar" flag. */
  lemma ExecAtMonotone(s: Sched, sensors: Sensors, i: nat)
    requires sensors.InRange() && i < |s.commands|
    ensures var r := ExecAt(s, sensors, i);
      && (forall k :: 0 <= k < |s.complete| && s.complete[k] ==> r.complete[k])
      && (s.assignNext ==> r.assignNext)
  {
  }

  /** Running one command keeps the drive values clamped. */
  lemma ExecAtClamped(s: Sched, sensors: Sensors, i: nat)
    requires sensors.InRange() && i < |s.commands| && Clamped(s.out)
    ensures Clamped(ExecAt(s, sensors, i).out)
  {
  }

  /** One pass over the first `n` slots leaves the later slots as they were. */
  lemma {:induction false} ExecUpToKeepsLater(s: Sched, sensors: Sensors, n: nat)
    requires sensors.InRange() && n <= |s.commands|
    ensures forall j :: n <= j < |s.commands| ==> ExecUpTo(s, sensors, n).commands[j] == s.commands[j]
  {
    if n > 0 {
      var t := ExecUpTo(s, sensors, n - 1);
      ExecUpToKeepsLater(s, sensors, n - 1);
      ExecAtSlots(t, sensors, n - 1);
    }
  }

  /** One pass only ever turns slots `blank`; no slot gets a different command. */
  lemma {:induction false} ExecUpToOnlyBlanks(s: Sched, sensors: Sensors, n: nat)
    requires sensors.InRange() && n <= |s.commands|
    ensures forall j :: 0 <= j < |s.commands| ==>
      ExecUpTo(s, sensors, n).commands[j] == s.commands[j] || ExecUpTo(s, sensors, n).commands[j] == Blank
  {
    if n > 0 {
      var t := ExecUpTo(s, sensors, n - 1);
      ExecUpToOnlyBlanks(s, sensors, n - 1);
      ExecAtSlots(t, sensors, n - 1);
      assert ExecUpTo(s, sensors, n) == ExecAt(t, sensors, n - 1);
    }
  }

  /** One pass never withdraws a completion mark or the "next bar" flag. */
  lemma {:induction false} ExecUpToMonotone(s: Sched, sensors: Sensors, n: nat)
    requires sensors.InRange() && n <= |s.commands|
    ensures forall k :: 0 <= k < |s.complete| && s.complete[k] ==> ExecUpTo(s, sensors, n).complete[k]
    ensures s.assignNext ==> ExecUpTo(s, sensors, n).assignNext
  {
    if n > 0 {
      var t := ExecUpTo(s, sensors, n - 1);
      ExecUpToMonotone(s, sensors, n - 1);
      ExecAtMonotone(t, sensors, n - 1);
      assert ExecUpTo(s, sensors, n) == ExecAt(t, sensors, n - 1);
    }
  }

  /** One pass keeps the drive values clamped to [-1, 1] with two decimals. */
  lemma {:induction false} ExecUpToClamped(s: Sched, sensors: Sensors, n: nat)
    requires sensors.InRange() && n <= |s.commands| && Clamped(s.out)
    ensures Clamped(ExecUpTo(s, sensors, n).out)
  {
    if n > 0 {
      var t := ExecUpTo(s, sensors, n - 1);
      ExecUpToClamped(s, sensors, n - 1);
      ExecAtClamped(t, sensors, n - 1);
      assert ExecUpTo(s, sensors, n) == ExecAt(t, sensors, n - 1);
    }
  }

  /** `reset()`: back to idle, tick 0, a fresh accumulator; the bar itself is left as it was. */
  function ResetState(s: Sched): (r: Sched)
    ensures r.idx == -1 && r.tick == 0.0 && r.out == ZeroParam && Clamped(r.out)
    ensures r.(idx := s.idx, tick := s.tick, out := s.out) == s
  {
    s.(idx := -1, tick := 0.0, out := ZeroParam)
  }

  /** What one call of `run` ended with: true, false, or an exception. */
  datatype Outcome = More | Finished | Threw

  datatype Ran = Ran(state: Sched, outcome: Outcome)

  /**
   * `run(delta)`: materialise the first entry if idle; then, while the
   * index is inside the queue, run every live command once, swap in the
   * next bar if the flag was raised, and advance the tick; otherwise reset
   * and answer false.
   */
  function RunTick(s: Sched, sensors: Sensors, delta: real): (r: Ran)
    requires sensors.InRange()
    ensures r.state.queue == s.queue
  {
    var first := if s.idx < 0 && |s.queue| > 0 then AssignBar(s.(idx := 0)) else (s, true);
    if !first.1 then Ran(first.0, Threw)
    else if first.0.idx < |first.0.queue| then RunBar(first.0, sensors, delta)
    else Ran(ResetState(first.0), Finished)
  }

  /** The running path of `run`: every live command once, then the deferred bar swap, then the tick. */
  function RunBar(s: Sched, sensors: Sensors, delta: real): (r: Ran)
    requires sensors.InRange()
    ensures r.state.queue == s.queue && r.outcome != Finished
  {
    EndTick(ExecUpTo(s, sensors, |s.commands|), delta)
  }

  /** The end of a running tick: the deferred bar swap when the flag is up, then the tick. */
  function EndTick(s: Sched, delta: real): (r: Ran)
    ensures r.state.queue == s.queue && r.outcome != Finished
    ensures !s.assignNext ==> r == Ran(s.(tick := s.tick + delta * 60.0), More)
    ensures s.assignNext ==> r.state.idx == s.idx + 1 && !r.state.assignNext
    ensures r.outcome == More ==> (r.state.idx == s.idx + 1 <==> s.assignNext)
  {
    if s.assignNext then
      var next := AssignBar(s.(assignNext := false));
      if next.1 then Ran(next.0.(tick := next.0.tick + delta * 60.0), More)
      else Ran(next.0, Threw)
    else Ran(s.(tick := s.tick + delta * 60.0), More)
  }

  /**
   * A running tick moves to the next bar exactly when, after the pass over
   * the live commands, the bar has completion slots and every one of them
   * is complete; otherwise the index stays.
   */
  lemma RunBarAdvancesWhenComplete(s: Sched, sensors: Sensors, delta: real)
    requires sensors.InRange() && FlagMatchesSlots(s)
    ensures var e := ExecUpTo(s, sensors, |s.commands|);
      var r := RunBar(s, sensors, delta);
      && (r.state.idx == s.idx || r.state.idx == s.idx + 1)
      && (r.state.idx == s.idx + 1 <==> |e.complete| > 0 && forall k :: 0 <= k < |e.complete| ==> e.complete[k])
  {
    ExecKeepsFlag(s, sensors, |s.commands|);
  }

  /** A tick of `run` keeps the state well formed, whether it runs, finishes or throws. */
  lemma RunWellFormed(s: Sched, sensors: Sensors, delta: real)
    requires WellFormed(s) && sensors.InRange()
    ensures WellFormed(RunTick(s, sensors, delta).state)
  {
    var first := if s.idx < 0 && |s.queue| > 0 then AssignBar(s.(idx := 0)) else (s, true);
    assert WellFormed(first.0);
    if first.1 && first.0.idx < |first.0.queue| {
      RunBarWellFormed(first.0, sensors, delta);
    }
  }

  /** The running path keeps the state well formed. */
  lemma RunBarWellFormed(s: Sched, sensors: Sensors, delta: real)
    requires WellFormed(s) && sensors.InRange()
    ensures WellFormed(RunBar(s, sensors, delta).state)
  {
    ExecUpToWellFormed(s, sensors, |s.commands|);
  }

  /**
   * `setCommandQueue`: the entries that are not `null`, in their order
   * (`NonNullMembers` says which entries these are, `NonNullAppend` that
   * the order is kept).
   */
  function NonNull(q: seq<Value>): (r: seq<Value>)
    ensures |r| <= |q|
    ensures |r| == |q| <==> forall k :: 0 <= k < |q| ==> !q[k].Null?
  {
    if q == [] then []
    else (if q[0].Null? then [] else [q[0]]) + NonNull(q[1..])
  }

  /** The filtered queue holds exactly the entries of the queue that are not `null`. */
  lemma {:induction false} NonNullMembers(q: seq<Value>)
    ensures forall v :: v in NonNull(q) <==> v in q && !v.Null?
  {
    if q != [] {
      NonNullMembers(q[1..]);
      assert q == [q[0]] + q[1..];
    }
  }

  /** `applyXY`: when active, x steers and y drives: left = x - y, right = -x - y. */
  function Steer(p: Param, x: real, y: real, active: bool): (q: Param)
    ensures !active ==> q == p
    ensures active ==> q.probeY == p.probeY && q.probeX == p.probeX && Clamped(q)
    ensures active ==> q.driveLeft == Clean(x - y) && q.driveRight == Clean(-x - y)
  {
    if active then SetDrive(p, Some(-y + x), Some(-y - x)) else p
  }

  // ---------------------------------------------------------------------
  // What the scheduler guarantees
  // ---------------------------------------------------------------------

  /** The flag asks for the next bar exactly when the bar has slots and all of them are complete. */
  ghost predicate FlagMatchesSlots(s: Sched) {
    s.assignNext <==> |s.complete| > 0 && false !in s.complete
  }

  /**
   * Within a tick the "next bar" flag is raised exactly when the last
   * outstanding slot completes: never for a bar without real triggers, and
   * never while any slot is still false.
   */
  lemma {:induction false} ExecKeepsFlag(s: Sched, sensors: Sensors, n: nat)
    requires sensors.InRange() && n <= |s.commands|
    requires FlagMatchesSlots(s)
    ensures FlagMatchesSlots(ExecUpTo(s, sensors, n))
  {
    if n > 0 {
      ExecKeepsFlag(s, sensors, n - 1);
      var t := ExecUpTo(s, sensors, n - 1);
      ExecAtKeepsFlag(t, sensors, n - 1);
      assert ExecUpTo(s, sensors, n) == ExecAt(t, sensors, n - 1);
    }
  }

  /** One command keeps the flag in step with the slots. */
  lemma ExecAtKeepsFlag(s: Sched, sensors: Sensors, i: nat)
    requires sensors.InRange() && i < |s.commands|
    requires FlagMatchesSlots(s)
    ensures FlagMatchesSlots(ExecAt(s, sensors, i))
  {
    if s.commands[i].Wrapped? && s.commands[i].unit < |s.triggers| && PollsTrigger(s.commands[i].maker, sensors) {
      var polled := RmCmdTrig(s, sensors, i, s.commands[i].unit);
      assert ExecAt(s, sensors, i).complete == polled.1.complete;
      assert ExecAt(s, sensors, i).assignNext == polled.1.assignNext;
      NextCountKeepsFlag(s.(triggers := polled.1.triggers), s.triggers[s.commands[i].unit].slot);
    }
  }

  /** Marking a slot keeps the flag in step with the slots. */
  lemma NextCountKeepsFlag(s: Sched, slot: Option<nat>)
    requires FlagMatchesSlots(s)
    ensures FlagMatchesSlots(NextCount(s, slot))
  {
    if slot.Some? && slot.value < |s.complete| && !s.assignNext {
      var r := NextCount(s, slot);
      assert r.complete[slot.value];
      assert |r.complete| > 0;
    }
  }

  /** A bar whose units all lack a trigger maker never asks for the next bar: it runs until reset. */
  lemma NoTriggerBarNeverAdvances(s: Sched, sensors: Sensors, n: nat)
    requires sensors.InRange() && n <= |s.commands|
    requires |s.complete| == 0 && !s.assignNext
    ensures !ExecUpTo(s, sensors, n).assignNext
  {
    ExecKeepsFlag(s, sensors, n);
  }

  /**
   * The command in slot `i` turns into `blank` exactly when it polled its
   * trigger and the trigger fired; every other slot is left as it was.
   */
  lemma BlankExactlyWhenFired(s: Sensors, st: Sched, i: nat)
    requires WellFormed(st) && s.InRange() && i < |st.commands| && st.commands[i].Wrapped?
    ensures var c := st.commands[i];
      ExecAt(st, s, i).commands[i] == Blank
      <==> PollsTrigger(c.maker, s) && PollTrigger(st.triggers[c.unit].trig, s, st.tick).fired
  {
  }

  /**
   * The wrapper changes nothing about what a command computes: the
   * accumulator and the unit's latch end up as the library's `Step` of that
   * command around that trigger.
   */
  lemma WrapperRunsStep(st: Sched, s: Sensors, i: nat)
    requires WellFormed(st) && s.InRange() && i < |st.commands| && st.commands[i].Wrapped?
    ensures var c := st.commands[i];
      var step := Step(c.maker, st.triggers[c.unit].trig, s, st.tick, st.out);
      ExecAt(st, s, i).out == step.param && ExecAt(st, s, i).triggers[c.unit].trig == step.trig
  {
  }

  /**
   * `run` answers false exactly when, after the first entry has been
   * materialised, the index has reached the end of the queue; it then
   * resets to idle with tick 0 and a zero accumulator, touching nothing
   * else.  The tick advances by `delta * 60` on the running path only.
   */
  lemma RunOutcome(s: Sched, sensors: Sensors, delta: real)
    requires sensors.InRange()
    ensures var r := RunTick(s, sensors, delta);
      && (s.idx >= 0 ==> (r.outcome == Finished <==> s.idx >= |s.queue|))
      && (s.idx < 0 && |s.queue| > 0 && r.outcome != Threw ==> (r.outcome == Finished <==> |s.queue| == 1))
      && (r.outcome == Finished ==> r.state.idx == -1 && r.state.tick == 0.0 && r.state.out == ZeroParam)
      && (r.outcome == More ==> r.state.tick == s.tick + delta * 60.0)
      && (r.outcome == Threw ==> r.state.tick == s.tick)
  {
    var first := if s.idx < 0 && |s.queue| > 0 then AssignBar(s.(idx := 0)) else (s, true);
    assert first.0.tick == s.tick;
    if first.1 && first.0.idx < |first.0.queue| {
      var e := ExecUpTo(first.0, sensors, |first.0.commands|);
      assert e.tick == s.tick;
      if e.assignNext {
        var next := AssignBar(e.(assignNext := false));
        assert next.0.tick == s.tick;
      }
    }
  }

  /**
   * `run` keeps the drive values clamped to [-1, 1], and the "next bar"
   * flag it may raise while running commands is always lowered again
   * before it returns.
   */
  lemma RunKeepsInvariants(s: Sched, sensors: Sensors, delta: real)
    requires sensors.InRange()
    ensures var r := RunTick(s, sensors, delta);
      && (Clamped(s.out) ==> Clamped(r.state.out))
      && (!s.assignNext ==> !r.state.assignNext)
  {
    var first := if s.idx < 0 && |s.queue| > 0 then AssignBar(s.(idx := 0)) else (s, true);
    if first.1 && first.0.idx < |first.0.queue| {
      var s2 := ExecUpTo(first.0, sensors, |first.0.commands|);
      if Clamped(s.out) {
        ExecUpToClamped(first.0, sensors, |first.0.commands|);
      }
      if s2.assignNext {
        var next := AssignBar(s2.(assignNext := false));
        assert !next.0.assignNext;
      }
    }
  }

  /** The index never moves backwards while the program runs: it moves by at most one bar per tick. */
  lemma RunAdvancesIndex(s: Sched, sensors: Sensors, delta: real)
    requires sensors.InRange() && s.idx >= 0
    ensures var r := RunTick(s, sensors, delta);
      r.outcome == More ==> r.state.idx == s.idx || r.state.idx == s.idx + 1
  {
  }

  /** The last entry is materialised but never executed: with the index at the end, `run` resets without running anything. */
  lemma LastEntryNeverRuns(s: Sched, sensors: Sensors, delta: real)
    requires sensors.InRange() && 1 <= s.idx == |s.queue|
    ensures RunTick(s, sensors, delta) == Ran(ResetState(s), Finished)
  {
  }

  /** A one-entry program that materialises cleanly answers false on the very first call, having run nothing. */
  lemma SingleEntryProgramRunsNothing(s: Sched, sensors: Sensors, delta: real)
    requires sensors.InRange() && s.idx < 0 && |s.queue| == 1
    requires AssignBar(s.(idx := 0)).1
    ensures RunTick(s, sensors, delta) == Ran(ResetState(AssignBar(s.(idx := 0)).0), Finished)
  {
  }

  /**
   * An empty program with no commands left over from an earlier program
   * (as in `Initial([])`) never finishes: `run` only advances the tick and
   * answers true.
   */
  lemma EmptyProgramSpins(s: Sched, sensors: Sensors, delta: real)
    requires sensors.InRange() && |s.queue| == 0 && s.idx < 0 && s.commands == []
    requires !s.assignNext
    ensures RunTick(s, sensors, delta) == Ran(s.(tick := s.tick + delta * 60.0), More)
  {
  }

  /**
   * Whatever commands are left over, `run` on an empty program at index -1
   * never answers false: it runs the leftover bar (which may throw).
   */
  lemma EmptyQueueNeverAnswersFalse(s: Sched, sensors: Sensors, delta: real)
    requires sensors.InRange() && |s.queue| == 0 && s.idx < 0
    ensures RunTick(s, sensors, delta).outcome != Finished
    ensures RunTick(s, sensors, delta) == RunBar(s, sensors, delta)
  {
  }

  /** The constructed scheduler with an empty program answers true forever. */
  lemma EmptyInitialNeverFinishes(frames: seq<Frame>)
    requires SaneFrames(frames)
    ensures forall k :: 0 <= k < |frames| ==> RunFrames(Initial([]), frames)[k] == More
  {
    EmptyProgramNeverFinishes(Initial([]), frames);
  }

  /** One host frame: the sensor snapshot and the frame's `delta`. */
  datatype Frame = Frame(sensors: Sensors, delta: real)

  ghost predicate SaneFrames(frames: seq<Frame>) {
    forall k :: 0 <= k < |frames| ==> frames[k].sensors.InRange()
  }

  /** The answers of calling `run` once per frame. */
  function RunFrames(s: Sched, frames: seq<Frame>): (r: seq<Outcome>)
    requires SaneFrames(frames)
    ensures |r| == |frames|
    decreases |frames|
  {
    if frames == [] then []
    else
      var ran := RunTick(s, frames[0].sensors, frames[0].delta);
      [ran.outcome] + RunFrames(ran.state, frames[1..])
  }

  /** From a state without leftover commands, an empty program answers true on every frame, forever. */
  lemma {:induction false} EmptyProgramNeverFinishes(s: Sched, frames: seq<Frame>)
    requires SaneFrames(frames)
    requires |s.queue| == 0 && s.idx < 0 && s.commands == [] && !s.assignNext
    ensures forall k :: 0 <= k < |frames| ==> RunFrames(s, frames)[k] == More
    decreases |frames|
  {
    if frames != [] {
      EmptyProgramSpins(s, frames[0].sensors, frames[0].delta);
      var next := s.(tick := s.tick + frames[0].delta * 60.0);
      assert SaneFrames(frames[1..]) by {
        forall k | 0 <= k < |frames| - 1 ensures frames[1..][k].sensors.InRange() {
          assert frames[1..][k] == frames[k + 1];
        }
      }
      EmptyProgramNeverFinishes(next, frames[1..]);
    }
  }

  /**
   * Between two calls of `run` the "next bar" flag is down and matches the
   * completion slots, unless materialising threw.
   */
  lemma RunSettlesFlag(s: Sched, sensors: Sensors, delta: real)
    requires sensors.InRange() && FlagMatchesSlots(s) && !s.assignNext
    ensures var r := RunTick(s, sensors, delta);
      !r.state.assignNext && (r.outcome != Threw ==> FlagMatchesSlots(r.state))
  {
    var first := if s.idx < 0 && |s.queue| > 0 then AssignBar(s.(idx := 0)) else (s, true);
    assert first.1 ==> FlagMatchesSlots(first.0) && !first.0.assignNext;
    if first.1 && first.0.idx < |first.0.queue| {
      var e := ExecUpTo(first.0, sensors, |first.0.commands|);
      ExecKeepsFlag(first.0, sensors, |first.0.commands|);
      if e.assignNext {
        var next := AssignBar(e.(assignNext := false));
        assert next.1 ==> FlagMatchesSlots(next.0);
      }
    }
  }

  /** `setCommandQueue` keeps the order: filtering a concatenation is concatenating the filtered parts. */
  lemma {:induction false} NonNullAppend(a: seq<Value>, b: seq<Value>)
    ensures NonNull(a + b) == NonNull(a) + NonNull(b)
  {
    if a == [] {
      assert a + b == b;
    } else {
      assert (a + b)[0] == a[0] && (a + b)[1..] == a[1..] + b;
      NonNullAppend(a[1..], b);
    }
  }

  /** A queue without `null` entries is kept as it is. */
  lemma {:induction false} NonNullKeepsClean(q: seq<Value>)
    requires forall k :: 0 <= k < |q| ==> !q[k].Null?
    ensures NonNull(q) == q
  {
    if q != [] {
      NonNullKeepsClean(q[1..]);
    }
  }

  /** Steering is mirror-symmetric: negating `x` swaps the two wheels; `x = 0` drives both alike. */
  lemma SteerMirrors(p: Param, x: real, y: real)
    ensures Steer(p, -x, y, true).driveLeft == Steer(p, x, y, true).driveRight
    ensures Steer(p, -x, y, true).driveRight == Steer(p, x, y, true).driveLeft
    ensures Steer(p, 0.0, y, true).driveLeft == Steer(p, 0.0, y, true).driveRight == Clean(-y)
  {
  }


  /**
   * The parsing half of `assignNextCommandBar`: read the entry as a list of
   * units and give each unit's trigger maker the next completion slot.
   */
  method ParseBar(cbm: Value) returns (r: Result<seq<UnitSpec>>, slots: seq<bool>, trigs: seq<BarTrigger>)
    ensures r == ParseEntry(cbm)
    ensures r.Ok? ==> slots == Falses(CountTriggers(r.value)) && trigs == BarTriggers(r.value)
  {
    if !cbm.Arr? {
      return Err(NotIterable), [], [];
    }
    r, slots, trigs := ParseUnitList(UnitValues(cbm));
  }

  /** Reading the units one by one; the first malformed unit ends the reading with its fault. */
  method ParseUnitList(units: seq<Value>) returns (r: Result<seq<UnitSpec>>, slots: seq<bool>, trigs: seq<BarTrigger>)
    ensures r == ParseUnits(units)
    ensures r.Ok? ==> slots == Falses(CountTriggers(r.value)) && trigs == BarTriggers(r.value)
  {
    slots, trigs := [], [];
    var bar: seq<UnitSpec> := [];
    var k := 0;
    while k < |units|
      invariant 0 <= k <= |units|
      invariant ParseUnits(units[..k]) == Ok(bar)
      invariant trigs == BarTriggers(bar) && slots == Falses(CountTriggers(bar))
    {
      var parsed := ParseUnit(units[k]);
      if parsed.Err? {
        ParseUnitsFirstFault(units, k);
        return Err(parsed.fault), slots, trigs;
      }
      var u := parsed.value;
      ParseUnitsSnoc(units, k, bar, u);
      BarTriggersSnoc(bar, u);
      FalsesSnoc(CountTriggers(bar));
      if u.trigger.Some? {
        trigs := trigs + [BarTrigger(Make(u.trigger.value), Some(|slots|))];
        slots := slots + [false];
      } else {
        trigs := trigs + [BarTrigger(Never, None)];
      }
      bar := bar + [u];
      k := k + 1;
    }
    assert units[..k] == units;
    r := Ok(bar);
  }

  /** One more unit read: the parse grows by that unit. */
  lemma ParseUnitsSnoc(units: seq<Value>, k: nat, bar: seq<UnitSpec>, u: UnitSpec)
    requires k < |units| && ParseUnits(units[..k]) == Ok(bar) && ParseUnit(units[k]) == Ok(u)
    ensures ParseUnits(units[..k + 1]) == Ok(bar + [u])
  {
    assert units[..k + 1][..k] == units[..k];
  }

  /** One more unit: the triggers grow by that unit's trigger, in the next free slot. */
  lemma BarTriggersSnoc(bar: seq<UnitSpec>, u: UnitSpec)
    ensures BarTriggers(bar + [u]) == BarTriggers(bar) + [UnitTrigger(u, CountTriggers(bar))]
    ensures CountTriggers(bar + [u]) == CountTriggers(bar) + (if u.trigger.Some? then 1 else 0)
  {
    assert (bar + [u])[..|bar|] == bar;
  }

  /** One more completion slot is one more `false`. */
  lemma FalsesSnoc(n: nat)
    ensures Falses(n + 1) == Falses(n) + [false]
  {
  }

  /**
   * The building half of `assignNextCommandBar`: wrap every command maker,
   * unit by unit, numbering them in order.  Building stops (the source
   * throws) at the first maker that is not a command maker; `ok` says
   * whether every maker was wrapped.
   */
  method WrapCommands(bar: seq<UnitSpec>) returns (commands: seq<Live>, ok: bool)
    ensures commands == WrapAll(Flat(bar))
    ensures ok <==> GoodPrefix(Flat(bar)) == |Flat(bar)|
  {
    ghost var fs := Flat(bar);
    commands := [];
    var i := 0;
    var u := 0;
    while u < |bar|
      invariant 0 <= u <= |bar|
      invariant i == |Flat(bar[..u])| <= |fs|
      invariant |commands| == i
      invariant forall m :: 0 <= m < i ==> fs[m].0.CommandFn? && commands[m] == ToLive(fs[m])
    {
      var makers := bar[u].makers;
      var j := 0;
      while j < |makers|
        invariant 0 <= j <= |makers|
        invariant i == |Flat(bar[..u])| + j <= |fs|
        invariant |commands| == i
        invariant forall m :: 0 <= m < i ==> fs[m].0.CommandFn? && commands[m] == ToLive(fs[m])
      {
        FlatAt(bar, u, j);
        var cmd := makers[j];
        if !cmd.CommandFn? {
          assert GoodPrefix(fs) == i;
          assert commands == WrapAll(fs);
          return commands, false;
        }
        commands := commands + [Wrapped(cmd.command, u)];
        i := i + 1;
        j := j + 1;
      }
      FlatNext(bar, u);
      u := u + 1;
    }
    assert bar[..u] == bar;
    assert GoodPrefix(fs) == i;
    assert commands == WrapAll(fs);
    ok := true;
  }

  // ---------------------------------------------------------------------
  // The scheduler object
  // ---------------------------------------------------------------------

  /**
   * `AutoTraceVehicle`: the scheduler with its state kept in fields and
   * updated in place.  `State()` reads the fields back as a `Sched`, and
   * every method is proved to leave exactly the state the corresponding
   * function computes.  The sensor readings are those in `can` when a
   * method runs.
   */
  class AutoTraceVehicle {
    const can: Luminance
    var cmds: CommandParam
    var queue: seq<Value>
    var idx: int
    var commands: seq<Live>
    var processed: seq<seq<Live>>
    var assignNext: bool
    var complete: seq<bool>
    var triggers: seq<BarTrigger>
    var tick: real

    ghost predicate Valid()
      reads this, cmds, cmds.drive, cmds.probe
    {
      cmds.Valid() && BarWellFormed(commands, triggers, complete)
    }

    function State(): Sched
      reads this, cmds, cmds.drive, cmds.probe
      requires cmds.Valid()
    {
      Sched(queue, idx, commands, processed, assignNext, complete, triggers, tick, cmds.Value())
    }

    /** A vehicle reading `can` and holding `queue` (the source installs a fixed program table here). */
    constructor (can: Luminance, queue: seq<Value>)
      ensures Valid() && State() == Initial(queue) && this.can == can
      ensures fresh(cmds) && fresh(cmds.drive) && fresh(cmds.probe)
    {
      this.can := can;
      cmds := new CommandParam();
      this.queue := queue;
      idx := -1;
      commands := [];
      processed := [];
      assignNext := false;
      complete := [];
      triggers := [];
      tick := 0.0;
    }

    /** `setCommandQueue`: install a program, dropping its `null` entries. */
    method SetCommandQueue(q: seq<Value>)
      requires Valid()
      modifies this
      ensures Valid() && cmds == old(cmds)
      ensures State() == old(State()).(queue := NonNull(q))
    {
      queue := NonNull(q);
    }

    /** `assignNextCommandBar`: parse the entry at `idx`, advance `idx`, and build the new bar's live commands. */
    method AssignNextCommandBar() returns (ok: bool)
      requires Valid()
      modifies this
      ensures Valid() && cmds == old(cmds)
      ensures (State(), ok) == AssignBar(old(State()))
    {
      ghost var s0 := State();
      var cbm := EntryAt(queue, idx);
      idx := idx + 1;
      var parsed, slots, trigs := ParseBar(cbm);
      if parsed.Err? {
        return false;
      }
      ok := InstallBar(parsed.value, slots, trigs);
      AssignBarOk(s0, parsed.value);
    }

    /** File the old bar in `processed`, then build and install the new one. */
    method InstallBar(us: seq<UnitSpec>, slots: seq<bool>, trigs: seq<BarTrigger>) returns (ok: bool)
      requires Valid() && slots == Falses(CountTriggers(us)) && trigs == BarTriggers(us)
      modifies this
      ensures Valid() && cmds == old(cmds)
      ensures State() == old(State()).(processed := old(processed) + [old(commands)],
        commands := WrapAll(Flat(us)), complete := slots, triggers := trigs)
      ensures ok <==> GoodPrefix(Flat(us)) == |Flat(us)|
    {
      processed := processed + [commands];
      commands, ok := WrapCommands(us);
      complete := slots;
      triggers := trigs;
      AssignBarWellFormed(us);
    }

    /** `rmCmdTrig` of the command in slot `i`: poll unit `u`'s trigger and blank the slot when it fires. */
    method PollWrapped(i: nat, u: nat) returns (fired: bool)
      requires Valid() && i < |commands| && u < |triggers|
      modifies this
      ensures Valid() && cmds == old(cmds)
      ensures (fired, State()) == RmCmdTrig(old(State()), can.Keys(), i, u)
    {
      var bt := triggers[u];
      var p := PollTrigger(bt.trig, can.Keys(), tick);
      triggers := triggers[u := bt.(trig := p.after)];
      fired := p.fired;
      if fired {
        // the trigger's `next`
        if bt.slot.Some? {
          complete := complete[bt.slot.value := true];
          if false !in complete {
            assignNext := true;
          }
        }
        commands := commands[i := Blank];
      }
    }

    /** Calling the live command in slot `i` with the output accumulator. */
    method ExecCommand(i: nat)
      requires Valid() && can.Keys().InRange() && i < |commands|
      modifies this, cmds.drive, cmds.probe
      ensures Valid() && cmds == old(cmds)
      ensures State() == ExecAt(old(State()), can.Keys(), i)
    {
      var sensors := can.Keys();
      match commands[i]
      case Blank =>
      case Wrapped(c, u) =>
        var fired := false;
        if PollsTrigger(c, sensors) {
          fired := PollWrapped(i, u);
        }
        match CommandEffect(c, sensors, fired)
        case SetWheels(l, r) => cmds.Drive(Some(l), Some(r));
        case AddLift(y) => cmds.AddProbe(Some(y), None);
        case Hold =>
    }

    /** The loop of `run` that calls every live command once, in order. */
    method RunCommands()
      requires Valid() && can.Keys().InRange()
      modifies this, cmds.drive, cmds.probe
      ensures Valid() && cmds == old(cmds)
      ensures State() == ExecUpTo(old(State()), can.Keys(), |old(commands)|)
    {
      ghost var s0 := State();
      var i := 0;
      while i < |commands|
        invariant Valid() && cmds == old(cmds)
        invariant 0 <= i <= |commands| == |s0.commands|
        invariant State() == ExecUpTo(s0, can.Keys(), i)
      {
        ghost var before := State();
        ExecCommand(i);
        assert State() == ExecAt(before, can.Keys(), i);
        assert ExecUpTo(s0, can.Keys(), i + 1) == ExecAt(ExecUpTo(s0, can.Keys(), i), can.Keys(), i);
        i := i + 1;
      }
    }

    /** `run(delta)`: one tick of the program; see `RunTick`. */
    method Run(delta: real) returns (outcome: Outcome)
      requires Valid() && can.Keys().InRange()
      modifies this, cmds.drive, cmds.probe
      ensures Valid()
      ensures Ran(State(), outcome) == RunTick(old(State()), can.Keys(), delta)
    {
      if idx < 0 && |queue| > 0 {
        idx := 0;
        var ok := AssignNextCommandBar();
        if !ok {
          return Threw;
        }
      }
      if idx < |queue| {
        outcome := RunLiveBar(delta);
      } else {
        Reset();
        outcome := Finished;
      }
    }

    /** The running path of `run`; see `RunBar`. */
    method RunLiveBar(delta: real) returns (outcome: Outcome)
      requires Valid() && can.Keys().InRange()
      modifies this, cmds.drive, cmds.probe
      ensures Valid()
      ensures Ran(State(), outcome) == RunBar(old(State()), can.Keys(), delta)
    {
      RunCommands();
      outcome := FinishTick(delta);
    }

    /** The end of a running tick; see `EndTick`. */
    method FinishTick(delta: real) returns (outcome: Outcome)
      requires Valid()
      modifies this
      ensures Valid() && cmds == old(cmds)
      ensures Ran(State(), outcome) == EndTick(old(State()), delta)
    {
      if assignNext {
        var ok := SwapBar();
        if !ok {
          return Threw;
        }
      }
      AdvanceTick(delta);
      outcome := More;
    }

    /** The deferred swap: lower the flag, then materialise the next bar. */
    method SwapBar() returns (ok: bool)
      requires Valid() && assignNext
      modifies this
      ensures Valid() && cmds == old(cmds)
      ensures (State(), ok) == AssignBar(old(State()).(assignNext := false))
    {
      assignNext := false;
      ok := AssignNextCommandBar();
    }

    /** `tick += delta * 60`: nothing else changes. */
    method AdvanceTick(delta: real)
      requires Valid()
      modifies this
      ensures Valid() && cmds == old(cmds)
      ensures State() == old(State()).(tick := old(tick) + delta * 60.0)
    {
      tick := tick + delta * 60.0;
    }

    /** `reset()`: idle again, tick 0, a fresh output accumulator. */
    method Reset()
      requires Valid()
      modifies this
      ensures Valid() && fresh(cmds) && fresh(cmds.drive) && fresh(cmds.probe)
      ensures State() == ResetState(old(State()))
    {
      idx := -1;
      tick := 0.0;
      cmds := new CommandParam();
    }

    /** `applyXY`: manual steering, written straight to the wheels when active. */
    method ApplyXY(x: real, y: real, active: bool)
      requires Valid()
      modifies cmds.drive
      ensures Valid() && State() == old(State()).(out := Steer(old(State()).out, x, y, active))
    {
      if active {
        var lft := -y + x;
        var rgt := -y - x;
        cmds.Drive(Some(lft), Some(rgt));
      }
    }
  }
}
