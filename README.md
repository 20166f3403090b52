# Line-following vehicle: command library and command-bar scheduler

This project models the program runner of a simulated line-following
vehicle. The vehicle reads four light sensors (top, left, bottom, right)
once per frame. It then runs a program: a list of steps, each pairing
commands that set wheel power (or lift) with a trigger that says when the
step is over.

- `numeric.dfy` (module `Numeric`): the one rounding rule the vehicle uses,
  `Math.trunc(x * 100) / 100`, clamped to [-1, 1] for wheel power. The model
  computes it on exact reals, where it truncates toward zero to two
  decimals. The program computes it on doubles, where `x * 100` can round
  and lose 0.01 (see "Left out").
- `commandlib.dfy` (module `CommandLib`):
  - the sensor snapshot (`Luminance`);
  - the output accumulator (`CommandParam`, two arrays updated in place);
  - the triggers `done`, `intersection` and `timer`, and the commands `go`,
    `trace`, `align`, `stop`, `drive` and `probe`.

  Closures become data. A maker records which factory built a closure. A
  `Trigger` carries the timer closure's latch. `PollTrigger` and `Step` are
  the closure bodies.
- `bar_scheduler.dfy` (module `BarScheduler`): the command-bar scheduler,
  as a pure state machine (`Sched`) plus the class `AutoTraceVehicle`.
  - An entry of the program is a "bar": one or several units, each unit
    being command makers with an optional trigger maker.
  - `assignNextCommandBar` materialises the entry at the index. Each
    command is wrapped so that it turns into `blank` once its unit's
    trigger fires.
  - A trigger that fires marks its unit's completion slot. When no slot is
    left false, the scheduler raises a flag, and the next bar is swapped in
    after the current pass.
  - The class methods update the fields in place. Each is proved equal to
    the pure step on the state it reads.
  - Program entries are raw JavaScript values (`Value`). A malformed entry
    is modelled by the `TypeError` it raises (`Fault`, outcome `Threw`).
- `draft_scheduler.dfy` (module `DraftScheduler`): the earlier
  single-command scheduler of `src/examples/car`. A trigger's `next`
  callback re-enters `nextCommand` while the command is still running. The
  wall clock is the `now` argument of a run.
- `colors.dfy` (module `Colors`): the colour classifier `getColorName`.

## Model

| member | source | states |
|---|---|---|
| Numeric.Trunc | src/lib/commandlib.ts:74 | `Math.trunc`: the integer part, rounding toward zero, bracketing `x` from below for x ≥ 0 and from above for x < 0 |
| Numeric.Trunc2 | src/lib/commandlib.ts:9 | cutting to two decimals gives a two-decimal value no larger in size than `x`, of the same sign, and less than 0.01 away |
| Numeric.Clean | src/lib/commandlib.ts:73-75 | `clean` always lies in [-1, 1] and has two decimals. It equals the two-decimal cut inside [-1, 1] and saturates at ±1 outside |
| Numeric.Trunc2OfQuantized | src/lib/commandlib.ts:73-75 | a value that already has two decimals is left unchanged by the cut |
| Numeric.CleanIdempotent | src/lib/commandlib.ts:73-75 | cleaning a cleaned value changes nothing |
| Numeric.TruncMonotone | src/lib/commandlib.ts:74 | truncation preserves order |
| Numeric.CleanMonotone | src/lib/commandlib.ts:73-75 | a larger request never gives a smaller wheel power |
| Numeric.CleanOdd | src/lib/commandlib.ts:73-75 | cleaning commutes with negation |
| CommandLib.SideIndex | src/lib/commandlib.ts:10-14 | a side key selects a reading below 4. A numeric key selects exactly the readings 0..3, and selects its own number |
| CommandLib.Luminance.constructor | src/lib/commandlib.ts:4-7 | all four readings start at 0 |
| CommandLib.Luminance.Get | src/lib/commandlib.ts:16-22 | `get(i)` is reading `i` for 0..3 and NaN for every other integer |
| CommandLib.Luminance.Keys | src/lib/commandlib.ts:26-28 | `keys()` hands out the four readings, numbered 0..3 as top, lft, bot, rgt exactly as `get` and `set` number them |
| CommandLib.Luminance.Map | src/lib/commandlib.ts:23-25 | `map(fn)` applies `fn` to the four readings, in the order top, lft, bot, rgt |
| CommandLib.Luminance.Set | src/lib/commandlib.ts:8-15 | `set` stores the two-decimal cut of the value in the selected reading and leaves the others. An unknown side changes nothing |
| CommandLib.SetDrive | src/lib/commandlib.ts:47-51 | `drive(l, r)` stores `clean` of each given side, keeps a missing side and never touches the probe. Two given sides leave both drive values clamped |
| CommandLib.IncDrive | src/lib/commandlib.ts:52-56 | `addDrive` adds `clean` of each given side and nothing for a missing side |
| CommandLib.SetProbe | src/lib/commandlib.ts:63-67 | `probe(y, x)` stores the given values unclamped and leaves the drive values alone |
| CommandLib.IncProbe | src/lib/commandlib.ts:68-72 | `addProbe` adds the given values and leaves the drive values alone |
| CommandLib.SetDriveOfStoredIsNoop | src/lib/commandlib.ts:47-51 | re-driving the stored wheel powers is a no-op |
| CommandLib.AddDriveCanLeaveRange | src/lib/commandlib.ts:52-56 | `addDrive` can push a wheel past 1 (1 + 0.5 = 1.5): the clamp applies to the increment only |
| CommandLib.CommandParam.constructor | src/lib/commandlib.ts:43-46 | both pairs start at zero, in two fresh arrays |
| CommandLib.CommandParam.Drive | src/lib/commandlib.ts:47-51 | the in-place update of `_drive` yields `SetDrive` of the old value |
| CommandLib.CommandParam.AddDrive | src/lib/commandlib.ts:52-56 | the in-place update of `_drive` yields `IncDrive` of the old value |
| CommandLib.CommandParam.Probe | src/lib/commandlib.ts:63-67 | the in-place update of `_probe` yields `SetProbe` of the old value |
| CommandLib.CommandParam.AddProbe | src/lib/commandlib.ts:68-72 | the in-place update of `_probe` yields `IncProbe` of the old value |
| CommandLib.CommandParam.GetDrive | src/lib/commandlib.ts:57-59 | the selected drive value, which lies in [-1, 1] while the accumulator is clamped |
| CommandLib.CommandParam.GetProbe | src/lib/commandlib.ts:60-62 | the selected probe value |
| CommandLib.IntersectionPatterns | src/lib/commandlib.ts:135-162 | for each of the five locks, which readings must be below 0.4 and which above 0.8 for `intersection` to fire |
| CommandLib.IntersectionHolds | src/lib/commandlib.ts:135-162 | the white pattern needs all four readings above 0.8, and every line pattern needs the bottom sensor below 0.4; `IntersectionPatterns` gives each lock in full |
| CommandLib.PollTrigger | src/lib/commandlib.ts:130-162 | the placeholder never fires and keeps no state. `done` always fires. `intersection` fires exactly on its pattern. The maker never changes |
| CommandLib.Make | src/lib/commandlib.ts:219-224 | a trigger is built armed, by its maker, with the timer latch not yet started |
| CommandLib.PollAll | src/lib/commandlib.ts:220-235 | one answer per poll |
| CommandLib.StartedTimerPolls | src/lib/commandlib.ts:220-235 | a started timer answers, at every later poll, whether its deadline is strictly before the tick |
| CommandLib.StatelessPolls | src/lib/commandlib.ts:130-162 | `done` and `intersection` answer every poll from the current sensors alone |
| CommandLib.TimerPolls | src/lib/commandlib.ts:220-235 | a fresh `timer(t)` answers false on its first poll and afterwards true exactly when the first poll's tick + t is strictly before the current tick |
| CommandLib.AlignTurn | src/lib/commandlib.ts:208 | `align`'s turn is `abs(lft - rgt)` |
| CommandLib.MapLinear | src/lib/commandlib.ts:188-191 | three.js `mapLinear` sends `a1` to `b1` and `a2` to `b2`, and maps [a1, a2] exactly onto [b1, b2] when both run upward |
| CommandLib.TraceWheels | src/lib/commandlib.ts:177-199 | with `sp = speed \|\| 1`: equal readings give (sp, sp). With lft > rgt the wheels are (sp, sp·(2·rgt/lft − 1)), and symmetrically with rgt > lft |
| CommandLib.AlignWheels | src/lib/commandlib.ts:203-218 | with lft > rgt the wheels are (max(lft − rgt, 0.1), rgt − lft), symmetrically with rgt > lft, and (0.1, 0.1) at balance |
| CommandLib.DriveWheels | src/lib/commandlib.ts:246-264 | deg < 0 gives (pow, (1 + 2·deg)·pow), deg > 0 gives ((1 − 2·deg)·pow, pow), and deg = 0 gives (pow, pow) |
| CommandLib.CommandEffect | src/lib/commandlib.ts:164-272 | every command but `probe` sets both wheels. `probe` adds lift, and holds exactly when its trigger fired. Every fired command except `align` and `probe` sets (0, 0) |
| CommandLib.ApplyEffect | src/lib/commandlib.ts:164-272 | writing a command's output into the accumulator keeps the drive values clamped |
| CommandLib.Step | src/lib/commandlib.ts:164-272 | one command call keeps the drive clamped. It fires only through a poll of a real trigger. With the placeholder it never fires and the latch stays |
| CommandLib.TraceSymmetric | src/lib/commandlib.ts:177-199 | mirroring the sensors mirrors `trace`'s wheels |
| CommandLib.TraceSlowsDarkerSide | src/lib/commandlib.ts:184-197 | with equal readings both wheels run at `speed`. Otherwise the brighter side runs at `speed`, for every non-zero speed. For a positive speed the darker side runs in [-speed, speed) |
| CommandLib.TraceZeroSpeedIsFull | src/lib/commandlib.ts:180 | `trace(0)` behaves as `trace(1)` |
| CommandLib.TraceExample | src/lib/commandlib.ts:184-197 | with lft 0.8 and rgt 0.2, `trace` gives (1, -0.5) |
| CommandLib.AlignRotates | src/lib/commandlib.ts:203-218 | `align` is mirror-symmetric and gives (0.1, 0.1) at balance. Otherwise the brighter side runs forward at exactly `max(turn, 0.1)`, so at least 0.1, and the other side at `-(turn)` |
| CommandLib.AlignPollsWhenBalanced | src/lib/commandlib.ts:215 | `align` polls its trigger exactly when the readings are within 0.42 |
| CommandLib.PollsTrigger | src/lib/commandlib.ts:215 | every command but `align` polls its trigger on every call; `align` polls it exactly when the two side readings are within 0.42 |
| CommandLib.DriveTurns | src/lib/commandlib.ts:246-264 | `drive([deg, pow])` goes straight at deg 0 and is mirror-symmetric in deg. The outer wheel runs at `pow` and the inner wheel at `(1 - 2|deg|) * pow`: it stops at |deg| = 0.5, reverses past it and reaches `-pow` at |deg| = 1 |
| CommandLib.FiredCommandsStop | src/lib/commandlib.ts:164-272 | on the tick their trigger fires, `go`, `trace`, `drive` and `stop` zero both wheels, and `probe` leaves the accumulator alone |
| CommandLib.GoDrivesFull | src/lib/commandlib.ts:164-171 | until its trigger fires, `go` sets both wheels to 1 |
| CommandLib.StopWithDoneFires | src/lib/commandlib.ts:130-133 | `[stop, done]` completes on its first call |
| CommandLib.ProbeLifts | src/lib/commandlib.ts:266-272 | `probe(speed)` never touches the wheels and raises lift by `speed` on each call until its trigger fires |
| BarScheduler.ParseUnit | src/pages/car/utils/autoTraceVehicle.ts:50-69 | a unit parses only if it is an array with at least a command slot. It has a trigger exactly when its second element is a trigger maker |
| BarScheduler.ParseUnits | src/pages/car/utils/autoTraceVehicle.ts:74-79 | a list of units parses exactly when every unit does, giving each unit's parse in order |
| BarScheduler.ParseUnitsFirstFault | src/pages/car/utils/autoTraceVehicle.ts:74-79 | a failing list reports the fault of its first malformed unit |
| BarScheduler.ParseEncodedUnit | src/pages/car/utils/autoTraceVehicle.ts:50-69 | every well-typed unit parses back to its command makers and trigger maker |
| BarScheduler.ParseEncodedEntry | src/pages/car/utils/autoTraceVehicle.ts:71-79 | every well-typed list of units, and every single unit with a trigger, parses back to exactly its units |
| BarScheduler.TriggerlessSingleUnit | src/pages/car/utils/autoTraceVehicle.ts:71-79 | a single unit without a trigger maker has length 1, so it is not recognised as a single unit and is read as a list of units. A lone command maker, or an empty list, then fails as not iterable, and a one-maker list parses to that one unit. With two or more makers the second is taken for a trigger maker: the model rejects the bar when it is built (`NotATriggerMaker`), while the source fails later or never (see "## Left out") |
| BarScheduler.ParseEntry | src/pages/car/utils/autoTraceVehicle.ts:39-79 | a non-array entry throws. A recognised single unit parses to exactly that one unit. Otherwise the entry gives one unit per element |
| BarScheduler.EntryAt | src/pages/car/utils/autoTraceVehicle.ts:40 | `queue[idx]` is the entry at an index inside the queue; any other index reads `undefined`, which fails to parse as not iterable |
| BarScheduler.SingleUnitHasTrigger | src/pages/car/utils/autoTraceVehicle.ts:71-74 | an entry taken for a single unit (`IsSingleUnit`: length 2, a function second) that parses carries a trigger maker, and the entry parses to just that unit |
| BarScheduler.Initial | src/pages/car/utils/autoTraceVehicle.ts:17-32 | the constructed state is well formed and its accumulator clamped |
| BarScheduler.BarTriggers | src/pages/car/utils/autoTraceVehicle.ts:49-59 | one trigger per unit. A unit has a completion slot exactly when it has a trigger maker. Slots are numbered in increasing unit order below the trigger count |
| BarScheduler.Falses | src/pages/car/utils/autoTraceVehicle.ts:57 | n completion slots, all false, and some slot is false exactly when n > 0 |
| BarScheduler.GoodPrefix | src/pages/car/utils/autoTraceVehicle.ts:83-100 | the makers before the cut are all command makers, and the maker at the cut is not |
| BarScheduler.WrapAll | src/pages/car/utils/autoTraceVehicle.ts:83-100 | slot j holds the j-th command maker wrapped with its unit's number, up to the first non-command maker |
| BarScheduler.AssignBar | src/pages/car/utils/autoTraceVehicle.ts:38-101 | `assignNextCommandBar` always advances the index and keeps tick, flag and accumulator. A malformed entry changes nothing else. Otherwise the old bar is filed, the slots are all false and the triggers are the entry's |
| BarScheduler.AssignBarBuilds | src/pages/car/utils/autoTraceVehicle.ts:80-100 | for an entry that parses, building succeeds exactly when the cut at the first non-command maker reaches the end of the flattened makers, and the live commands are `WrapAll` of those makers |
| BarScheduler.AllCommandMakers | src/pages/car/utils/autoTraceVehicle.ts:84-96 | the cut reaches the end of the makers exactly when every one of them is a command maker |
| BarScheduler.AssignBarOk | src/pages/car/utils/autoTraceVehicle.ts:49-100 | for an entry that parses, building succeeds exactly when every maker of every unit is a command maker, and then the bar holds one command per maker |
| BarScheduler.AssignBarPlaces | src/pages/car/utils/autoTraceVehicle.ts:82-100 | when building succeeds, command `j` of unit `u` is a command maker and sits, wrapped with unit `u`'s trigger, right after the makers of the units before `u` |
| BarScheduler.AssignBarWellFormed | src/pages/car/utils/autoTraceVehicle.ts:49-100 | a freshly built bar is well formed: every command names an existing unit, and slots exist exactly for real triggers and lie inside the completion array |
| BarScheduler.NextCount | src/pages/car/utils/autoTraceVehicle.ts:44-48 | `nextCount` marks its slot, touches no other slot, and raises the flag exactly when no slot is left false |
| BarScheduler.RmCmdTrig | src/pages/car/utils/autoTraceVehicle.ts:89-95 | the wrapper (with the `nextCount` callback it fires, lines 44-47) answers what its unit's trigger answers and leaves the accumulator alone; a completion slot becomes true exactly when it was true or is the slot of the trigger that just fired, and the swap is requested exactly when that firing leaves no slot false; the command is blanked exactly when the trigger fired |
| BarScheduler.ExecAt | src/pages/car/utils/autoTraceVehicle.ts:89-97 | running one live command changes neither the program, the index, the filed bars nor the tick, and keeps the bar's shape |
| BarScheduler.ExecUpTo | src/pages/car/utils/autoTraceVehicle.ts:115-117 | a pass over the live commands changes neither the program, the index, the filed bars nor the tick, and keeps the bar's shape |
| BarScheduler.ExecAtWellFormed | src/pages/car/utils/autoTraceVehicle.ts:115-117 | running one command keeps the bar well formed |
| BarScheduler.ExecUpToWellFormed | src/pages/car/utils/autoTraceVehicle.ts:115-117 | a pass over the commands keeps the bar well formed |
| BarScheduler.ExecAtSlots | src/pages/car/utils/autoTraceVehicle.ts:89-97 | running command i touches only slot i, which stays or becomes `blank`. A `blank` slot changes nothing |
| BarScheduler.ExecAtMonotone | src/pages/car/utils/autoTraceVehicle.ts:44-48 | a command never clears a completion mark or lowers the flag |
| BarScheduler.ExecAtClamped | src/pages/car/utils/autoTraceVehicle.ts:115-117 | a command keeps the drive values clamped |
| BarScheduler.ExecUpToKeepsLater | src/pages/car/utils/autoTraceVehicle.ts:115-117 | commands are run in slot order: after the first n, the later slots are untouched |
| BarScheduler.ExecUpToOnlyBlanks | src/pages/car/utils/autoTraceVehicle.ts:89-95 | a pass only ever blanks slots, never installs a different command |
| BarScheduler.ExecUpToMonotone | src/pages/car/utils/autoTraceVehicle.ts:44-48 | a pass never clears a completion mark or lowers the flag |
| BarScheduler.ExecUpToClamped | src/pages/car/utils/autoTraceVehicle.ts:115-117 | a pass keeps the drive values clamped |
| BarScheduler.ResetState | src/pages/car/utils/autoTraceVehicle.ts:131-137 | `reset` sets index -1, tick 0 and a zero accumulator, and nothing else |
| BarScheduler.RunTick | src/pages/car/utils/autoTraceVehicle.ts:105-130 | `run(delta)` never changes the program; its outcome and new state are given by `RunOutcome` and its neighbours |
| BarScheduler.RunBar | src/pages/car/utils/autoTraceVehicle.ts:112-123 | the running path never answers "finished" and keeps the program |
| BarScheduler.EndTick | src/pages/car/utils/autoTraceVehicle.ts:118-123 | the end of a running tick never answers "finished" and keeps the program; without a pending swap only the tick moves on; with one, the index advances and the request is cleared; a tick that goes on has advanced the index exactly when a swap was pending |
| BarScheduler.RunBarAdvancesWhenComplete | src/pages/car/utils/autoTraceVehicle.ts:112-123 | a running tick either keeps the index or advances it by one, and it advances exactly when the bar has completion slots and all of them are true after the pass over the live commands |
| BarScheduler.RunWellFormed | src/pages/car/utils/autoTraceVehicle.ts:105-130 | `run` keeps the state well formed, whichever way it ends |
| BarScheduler.RunBarWellFormed | src/pages/car/utils/autoTraceVehicle.ts:112-123 | the running path keeps the state well formed |
| BarScheduler.NonNull | src/pages/car/utils/autoTraceVehicle.ts:33-37 | the filtered queue is no longer than the input, and exactly as long when no entry is `null` |
| BarScheduler.NonNullMembers | src/pages/car/utils/autoTraceVehicle.ts:33-37 | the filtered queue holds exactly the entries of the input that are not `null` |
| BarScheduler.Steer | src/pages/car/utils/autoTraceVehicle.ts:139-147 | `applyXY` changes nothing when inactive. When active it drives (clean(x − y), clean(−x − y)), leaves the probe alone and keeps the wheels clamped |
| BarScheduler.ExecKeepsFlag | src/pages/car/utils/autoTraceVehicle.ts:44-48 | during a pass the flag is up exactly when the bar has slots and none is false |
| BarScheduler.ExecAtKeepsFlag | src/pages/car/utils/autoTraceVehicle.ts:89-95 | one command keeps the flag in step with the slots |
| BarScheduler.NextCountKeepsFlag | src/pages/car/utils/autoTraceVehicle.ts:44-48 | marking a slot keeps the flag in step with the slots |
| BarScheduler.NoTriggerBarNeverAdvances | src/pages/car/utils/autoTraceVehicle.ts:44-59 | a bar without any trigger maker never raises the flag |
| BarScheduler.BlankExactlyWhenFired | src/pages/car/utils/autoTraceVehicle.ts:89-95 | a command's slot becomes `blank` exactly when it polled its unit's trigger and the trigger fired |
| BarScheduler.WrapperRunsStep | src/pages/car/utils/autoTraceVehicle.ts:89-96 | the wrapper changes nothing about the command: the accumulator and the latch are the library `Step`'s |
| BarScheduler.RunOutcome | src/pages/car/utils/autoTraceVehicle.ts:105-130 | `run` answers false exactly when the index is past the program, then resets. The tick grows by delta*60 on a true answer and stays on a throw |
| BarScheduler.RunKeepsInvariants | src/pages/car/utils/autoTraceVehicle.ts:105-130 | `run` keeps the drive values clamped and returns with the flag down |
| BarScheduler.RunAdvancesIndex | src/pages/car/utils/autoTraceVehicle.ts:112-123 | a running tick advances the index by at most one |
| BarScheduler.LastEntryNeverRuns | src/pages/car/utils/autoTraceVehicle.ts:107-128 | once the index has reached the end, `run` resets without running the last bar's commands |
| BarScheduler.SingleEntryProgramRunsNothing | src/pages/car/utils/autoTraceVehicle.ts:107-128 | a one-entry program answers false on its first call, having run nothing |
| BarScheduler.EmptyProgramSpins | src/pages/car/utils/autoTraceVehicle.ts:107-123 | with an empty program and no commands left over from an earlier program (as in `Initial([])`), `run` only advances the tick and answers true |
| BarScheduler.RunFrames | src/pages/car/utils/autoTraceVehicle.ts:105-130 | one answer per frame |
| BarScheduler.EmptyProgramNeverFinishes | src/pages/car/utils/autoTraceVehicle.ts:107-129 | from a state with an empty program and no leftover commands, every call of `run` answers true |
| BarScheduler.EmptyInitialNeverFinishes | src/pages/car/utils/autoTraceVehicle.ts:17-32 | the scheduler constructed with an empty program answers true on every frame |
| BarScheduler.EmptyQueueNeverAnswersFalse | src/pages/car/utils/autoTraceVehicle.ts:107-123 | whatever commands are left over, `run` on an empty program at index -1 runs the leftover bar and never answers false |
| BarScheduler.RunSettlesFlag | src/pages/car/utils/autoTraceVehicle.ts:105-130 | between calls the flag is down and, unless `run` threw, matches the slots |
| BarScheduler.NonNullAppend | src/pages/car/utils/autoTraceVehicle.ts:33-37 | filtering keeps order: filtering a concatenation concatenates the filtered parts |
| BarScheduler.NonNullKeepsClean | src/pages/car/utils/autoTraceVehicle.ts:33-37 | a queue without nulls is kept as it is |
| BarScheduler.SteerMirrors | src/pages/car/utils/autoTraceVehicle.ts:139-147 | mirroring x swaps the wheels, and x = 0 drives both wheels at `clean(-y)` |
| BarScheduler.ParseBar | src/pages/car/utils/autoTraceVehicle.ts:40-79 | the parsing loop computes `ParseEntry` of the entry, with the bar's completion slots and triggers |
| BarScheduler.ParseUnitList | src/pages/car/utils/autoTraceVehicle.ts:74-79 | the loop over the units computes `ParseUnits`, stopping at the first malformed unit |
| BarScheduler.WrapCommands | src/pages/car/utils/autoTraceVehicle.ts:82-100 | the nested loops build exactly `WrapAll` of the flattened makers, and `ok` says whether every maker was wrapped |
| BarScheduler.AutoTraceVehicle.constructor | src/pages/car/utils/autoTraceVehicle.ts:17-32 | the object starts in `Initial(queue)` with a fresh accumulator |
| BarScheduler.AutoTraceVehicle.SetCommandQueue | src/pages/car/utils/autoTraceVehicle.ts:33-37 | the queue becomes the non-null entries; nothing else changes |
| BarScheduler.AutoTraceVehicle.AssignNextCommandBar | src/pages/car/utils/autoTraceVehicle.ts:38-101 | the in-place update yields `AssignBar` of the old state and keeps the object valid |
| BarScheduler.AutoTraceVehicle.InstallBar | src/pages/car/utils/autoTraceVehicle.ts:80-100 | files the old bar and installs the wrapped commands, slots and triggers, keeping the object valid |
| BarScheduler.AutoTraceVehicle.PollWrapped | src/pages/car/utils/autoTraceVehicle.ts:89-95 | the in-place wrapper call yields `RmCmdTrig` of the old state |
| BarScheduler.AutoTraceVehicle.ExecCommand | src/pages/car/utils/autoTraceVehicle.ts:116 | one command call on the object yields `ExecAt` of the old state |
| BarScheduler.AutoTraceVehicle.RunCommands | src/pages/car/utils/autoTraceVehicle.ts:115-117 | the loop over the commands yields `ExecUpTo` over all of them |
| BarScheduler.AutoTraceVehicle.Run | src/pages/car/utils/autoTraceVehicle.ts:105-130 | `run(delta)` on the object yields `RunTick` of the old state and keeps the object valid |
| BarScheduler.AutoTraceVehicle.RunLiveBar | src/pages/car/utils/autoTraceVehicle.ts:112-123 | the running path yields `RunBar` |
| BarScheduler.AutoTraceVehicle.FinishTick | src/pages/car/utils/autoTraceVehicle.ts:118-123 | the deferred bar swap and the tick yield `EndTick` |
| BarScheduler.AutoTraceVehicle.SwapBar | src/pages/car/utils/autoTraceVehicle.ts:118-122 | with the flag up, lowering it and materialising the next bar is `AssignBar` of the state with the flag down |
| BarScheduler.AutoTraceVehicle.AdvanceTick | src/pages/car/utils/autoTraceVehicle.ts:123 | the tick moves on by `delta * 60` and nothing else in the state changes |
| BarScheduler.AutoTraceVehicle.Reset | src/pages/car/utils/autoTraceVehicle.ts:131-137 | yields `ResetState` with a fresh accumulator |
| BarScheduler.AutoTraceVehicle.ApplyXY | src/pages/car/utils/autoTraceVehicle.ts:139-147 | yields `Steer` applied to the accumulator |
| DraftScheduler.PollTrigger | src/examples/car/utils/autoTraceVehicle.ts:122-210 | a poll never changes the maker; only a timer has a latch to change |
| DraftScheduler.MakeTrigger | src/examples/car/utils/autoTraceVehicle.ts:66 | a trigger is built by its maker, not yet started |
| DraftScheduler.Polls | src/examples/car/utils/autoTraceVehicle.ts:148-254 | every command but `align` calls its trigger. `align` calls it exactly when the readings are within 0.15 |
| DraftScheduler.Output | src/examples/car/utils/autoTraceVehicle.ts:148-254 | a fired command other than `align` outputs (0, 0), as do `stop` and `fin` always. Every command but `drive` outputs powers within [-1, 1] |
| DraftScheduler.TriggerAnswers | src/examples/car/utils/autoTraceVehicle.ts:126-146 | `none` never fires. `intersection(R/L/T)` fires exactly when its three readings are all below 0.45 |
| DraftScheduler.Crossing | src/examples/car/utils/autoTraceVehicle.ts:128-146 | the test holds only with the bottom sensor below 0.45, the reading every lock includes; `TriggerAnswers` gives each lock in full |
| DraftScheduler.TimerPolls | src/examples/car/utils/autoTraceVehicle.ts:196-210 | a timer answers false on its first poll, which sets the deadline to now + ms. Later polls fire exactly when the deadline is strictly before now |
| DraftScheduler.LibraryIntersectionImpliesCrossing | src/examples/car/utils/autoTraceVehicle.ts:128-146 | the library's 0.4 test implies this version's 0.45 test for each lock |
| DraftScheduler.TraceMatchesLibrary | src/examples/car/utils/autoTraceVehicle.ts:157-175 | this version's `trace` equals the library's `trace` at full speed |
| DraftScheduler.TraceWheels | src/examples/car/utils/autoTraceVehicle.ts:157-175 | equal side readings drive straight at (1, 1); otherwise the brighter side's wheel runs at 1 and the other at 2 * darker / brighter - 1, so both wheels stay within [-1, 1] |
| DraftScheduler.AlignSpins | src/examples/car/utils/autoTraceVehicle.ts:179-194 | `align` outputs (turn, -turn) or (-turn, turn) with turn = abs(lft - rgt), forward on the brighter side, whatever the trigger says. It polls exactly when turn < 0.15 |
| DraftScheduler.DriveOutputs | src/examples/car/utils/autoTraceVehicle.ts:238-254 | `drive(d)` outputs (1, d) for d < 0, (-d, 1) for d > 0, (1, 1) for d = 0, zero once fired. It is mirror-symmetric in d |
| DraftScheduler.FiredCommandsStop | src/examples/car/utils/autoTraceVehicle.ts:148-254 | every command except `align` outputs (0, 0) on the call its trigger fires |
| DraftScheduler.Initial | src/examples/car/utils/autoTraceVehicle.ts:28-62 | the constructed scheduler holds the program, is idle (index -1, `blank`) and settled, with both stored outputs 0 |
| DraftScheduler.NextEntry | src/examples/car/utils/autoTraceVehicle.ts:63-70 | `nextCommand` makes the entry at the index live and advances the index by one, keeping the outputs |
| DraftScheduler.Materialise | src/examples/car/utils/autoTraceVehicle.ts:65-67 | making an entry live builds its command with a fresh, not yet started trigger from the entry's trigger maker |
| DraftScheduler.Invoke | src/examples/car/utils/autoTraceVehicle.ts:65-84 | calling the live command keeps the program and the stored outputs |
| DraftScheduler.Tick | src/examples/car/utils/autoTraceVehicle.ts:75-100 | `run` keeps the program |
| DraftScheduler.TickSettles | src/examples/car/utils/autoTraceVehicle.ts:63-100 | after a run the index is -1 exactly when nothing is live, is never 0, and is never past the end |
| DraftScheduler.RunOutcome | src/examples/car/utils/autoTraceVehicle.ts:75-104 | `run` answers true exactly while the index is inside the program, then stores outputs in [-1, 1] with two decimals. Otherwise it resets the index and the live command and keeps the outputs |
| DraftScheduler.RunStoresCleanedOutput | src/examples/car/utils/autoTraceVehicle.ts:77-104 | a run that answers true, including the first one that materialises entry 0, stores `cleanOut` of the live command's output: the two-decimal cut inside [-1, 1], and -1 or 1 beyond |
| DraftScheduler.SharpDriveIsClamped | src/examples/car/utils/autoTraceVehicle.ts:84-91 | an unfired `drive(-3)` returns (1, -3), and the run stores (1, -1) |
| DraftScheduler.FirstRun | src/examples/car/utils/autoTraceVehicle.ts:77-81 | the first run of a program with two or more entries leaves index 1 with entry 0 live, or index 2 with entry 1 live if entry 0's trigger fired at once |
| DraftScheduler.NextReentersNextCommand | src/examples/car/utils/autoTraceVehicle.ts:63-70 | when the trigger fires during the command's call, the next entry becomes live and the index advances by one. Otherwise the same command stays live. The output is the polling command's |
| DraftScheduler.RunAdvancesByOne | src/examples/car/utils/autoTraceVehicle.ts:63-99 | a run that answers true advances the index by at most one |
| DraftScheduler.LastEntryNeverRuns | src/examples/car/utils/autoTraceVehicle.ts:82-99 | once the index is at the end, the next run resets without calling the last entry's command |
| DraftScheduler.EmptyProgramRuns | src/examples/car/utils/autoTraceVehicle.ts:75-100 | with an empty program a run calls `blank`, stores (0, 0) and answers true |
| DraftScheduler.RunFrames | src/examples/car/utils/autoTraceVehicle.ts:75-100 | one answer per frame |
| DraftScheduler.EmptyProgramNeverFinishes | src/examples/car/utils/autoTraceVehicle.ts:75-100 | with an empty program every run answers true |
| DraftScheduler.FalseOnlyAtEnd | src/examples/car/utils/autoTraceVehicle.ts:82-99 | a run answers false only with the index at the end of the program, or for a one-entry program on its first run |
| DraftScheduler.DraftVehicle.constructor | src/examples/car/utils/autoTraceVehicle.ts:28-62 | the object starts in `Initial(queue)` |
| DraftScheduler.DraftVehicle.NextCommand | src/examples/car/utils/autoTraceVehicle.ts:63-70 | the in-place update yields `NextEntry` of the old state |
| DraftScheduler.DraftVehicle.CallCommand | src/examples/car/utils/autoTraceVehicle.ts:65-84 | calling the live command, re-entering `NextCommand` when its trigger fires, yields `Invoke` |
| DraftScheduler.DraftVehicle.Run | src/examples/car/utils/autoTraceVehicle.ts:75-100 | `run()` at time `now` yields `Tick` of the old state and leaves the object settled |
| Colors.GetColorName | src/examples/car/utils/colors.ts:11-47 | the corrected classifier, with yellow and magenta exchanged as in the Findings row. Black exactly below brightness 128; a primary only when that channel is strictly the largest |
| Colors.GetColorNameAsWritten | src/examples/car/utils/colors.ts:11-47 | the classifier as written: black exactly below brightness 128, a primary only when that channel is strictly largest, and "yellow" for red and blue over green, "magenta" for red and green over blue |
| Colors.Brightness | src/examples/car/utils/colors.ts:14-15 | the YIQ brightness of channels in 0..255 lies in [0, 255], and is never below the smallest channel |
| Colors.AsWrittenSwapsSecondaries | src/examples/car/utils/colors.ts:37-42 | on every input the code as written differs from the corrected classifier exactly by exchanging yellow and magenta |
| Colors.MagentaNamedYellow | src/examples/car/utils/colors.ts:37-38 | (200, 100, 150) has brightness 135.6. As written it is named yellow; the corrected classifier names it magenta |
| Colors.ColorNameMeaning | src/examples/car/utils/colors.ts:15-45 | what each of the eight names means, in both directions, in terms of brightness and channel order |
| Colors.SecondaryNamesStrongChannels | src/examples/car/utils/colors.ts:37-42 | yellow, cyan and magenta name the two strongest channels (red+green, green+blue, red+blue) |
| Colors.BrightTieIsWhite | src/examples/car/utils/colors.ts:20-29 | above brightness 192, a colour without a strictly largest channel is white |
| Colors.GreyIsBlackOrWhite | src/examples/car/utils/colors.ts:15-45 | a grey v has brightness v and is black below 128, white from there on |
| Colors.BrightPrimaryStable | src/examples/car/utils/colors.ts:20-26 | adding the same amount to every channel of a bright primary keeps its name |

## Left out

- Telemetry: `record`, `autoRecord` and `sample` are write-only buffers and are not modelled.
- Console output (`console.warn` in `Luminance.set`, `console.log` in the draft's `fin`) is not modelled.
- `evalCommandQueue` runs `eval` on program text. It is foreign code and is not modelled.
- The fixed program tables (`FUELSTATION_TEST`, `TRACE_TEST`, the draft's own queue) are not modelled. Both constructors take the program as a parameter instead.
- Numbers are doubles in the program and exact reals in the model, so the cut `Math.trunc(x * 100) / 100` can lose 0.01 to rounding there (0.58 * 100 is 57.99999999999999, so `clean(0.58)` is 0.57). `Numeric.Trunc2`'s error bound and all other properties are stated for exact arithmetic.
- Numeric.Trunc2OfQuantized: holds only in exact arithmetic. In doubles `trunc(0.29 * 100) / 100` is 0.28.
- Numeric.CleanIdempotent: holds only in exact arithmetic. In doubles `clean(clean(0.585))` is 0.57, not 0.58.
- CommandLib.SetDriveOfStoredIsNoop: holds only in exact arithmetic. In doubles, re-driving a stored 0.58 stores 0.57.
- Leftover commands: `reset` keeps the last bar's commands, so a program emptied with `setCommandQueue([])` still runs them and, once their triggers have fired, throws reading entry -1. `EmptyProgramSpins` and `EmptyProgramNeverFinishes` therefore assume no leftover commands; `EmptyQueueNeverAnswersFalse` covers the general case for one call.
- NaN and -0 do not exist among reals.
  - The `|| 0` of `clean`/`cleanOut` only affects them, so it has no counterpart.
  - `Luminance.get` returns `Num.NaN` for an unknown index.
  - `trace`'s 0/0 ratio at equal readings is never read, so the model does not compute it.
- Commands and triggers require sensor readings in [0, 1], which the sampler delivers. `trace` only needs the larger reading to be positive when the two differ.
- BarScheduler.ParseUnit: a maker of the wrong kind is rejected when the bar is built. A trigger maker in a command slot gives `NotACommandMaker`; a typed program cannot write this, because a trigger maker returns a trigger and not a command. A command maker in the trigger slot gives `NotATriggerMaker`. A typed program can reach this through a triggerless single unit, and there the source does not fail at this point (next line).
- BarScheduler.TriggerlessSingleUnit: the typed single unit `[[c1, c2, ...]]` has no trigger maker, and so it is read as a list holding one unit `[c1, c2, ...]`. The model answers `NotATriggerMaker` when the bar is built. The source builds the bar instead:
  - `c2` becomes the unit's trigger, with a completion slot of its own;
  - `c1` is the only command, and any makers after `c2` are dropped;
  - that trigger is polled whenever `c1` polls its trigger. A poll runs `c2`'s command body without an accumulator. The body marks the slot (for `align`, only when |lft - rgt| < 0.42), which may raise `assignNext`, and then throws a `TypeError` at `args.drive`/`args.addProbe`;
  - so `run` throws at the first poll of that trigger, or never: with `c1 = align`, no poll happens while |lft - rgt| stays at or above 0.42.
  The model has no way to throw in the middle of the pass over the live commands, so it reports the fault when the bar is built.
- `ExecAt` and `NextCount` are total: a unit or slot number outside the bar is a no-op. That never happens in a well-formed state, which the scheduler always keeps (`RunWellFormed`).
- The draft's `if (!can) return false` guard is not modelled: the sensor object always exists.
- The draft's `timer` reads `Date.now()`. The model takes that time as the `now` argument of a run, so one run sees one time.
- `CommandLib.PollTrigger`: the timer fires when its deadline is strictly before the tick, as the code does. A description saying "reached" (`>=`) is not followed.
- `CommandLib.TraceSlowsDarkerSide`: as in the code, `trace` slows the wheel on the darker (lower) side. A description saying "brighter" is not followed.
- `CommandLib.IncDrive`: `addDrive` clamps only the increment, so the drive values can leave [-1, 1]. The clamping invariant (`RunKeepsInvariants`) holds because no command calls `addDrive`.
- Host wiring in the input hooks (`useControls.tsx`, which calls `run()` without `delta`) is outside this model.
- The Luminance class duplicated in `src/pages/car/utils/useCanvasMap.ts` is not part of this model. It is identical to the one in `src/lib/commandlib.ts`.

## Findings

| source | as written | input that shows it | evidently intended | confidence | as-written member | corrected member |
|---|---|---|---|---|---|---|
| src/examples/car/utils/colors.ts:37-42 | a mid-brightness colour with green weakest is named "yellow", and one with blue weakest "magenta" | (200, 100, 150): brightness 135.6, red and blue strong, green weak → "yellow" | red+blue is magenta and red+green is yellow: the two labels are exchanged | high (not executed) | Colors.MagentaNamedYellow | Colors.SecondaryNamesStrongChannels |
