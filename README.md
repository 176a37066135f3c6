# procond core, modelled in Dafny

procond is a Linux daemon that turns Nintendo Joy-Cons and Pro Controllers
into ordinary game controllers. It discovers the controllers among the
event devices. The operator pairs them into logical units by pressing the
left and right shoulder buttons. For every unit the daemon creates one
uinput virtual device and writes the player index to the controller
driver's indicator file. It captures the physical devices exclusively and
is meant to relay their events to the virtual devices. As written, the
units are dropped before operating mode sees them, so no event is relayed
(see below). A three-mode loop
(configuring, operating, dormant) drives all of this.

The model has seven modules, one per source file plus two shared ones:

- `Evdev` (evdev.dfy) holds the values exchanged with the kernel:
  - device identities, input events and event codes;
  - the error kinds;
  - `Res`, the result type standing for `Result<_, std::io::Error>`.
- `Environment` (environment.dfy) is the world the daemon acts on: a `Host`
  whose `log` records every indicator write, virtual-device creation and
  grab/release call, in order and with its outcome.
  - Which calls fail is a fixed set of log positions (`failing`), so any
    pattern of failures can be described.
  - Each method that calls the host is tied to a pure function of its
    inputs and its starting log position (`SetLedSpec`, `AllLedsSpec`,
    `FromSpec`, `UnitGrabSpec`, `FormUnitSpec`, `GrabPass`, `ResetSpec`,
    `PairingSpec`, `PairsPass`). Its contract is `host.log == old(host.log)
    + ...` with the calls those functions give. `Configure` returns the
    calls of its stages as ghost results and states them against the same
    functions. `Iteration` states every call of a configuring round: the
    reset's (`ResetSpec`), the pairing's (`PairingSpec`), and, when every
    device is paired, the capture's (`PairsPass` over the plan's pairs).
- `Procon` (procon.dfy) models src/procon/mod.rs:
  - the `ProController` class and its fields;
  - the indicator path and writes;
  - the virtual device's capability record;
  - grab and release;
  - one forwarding tick.
- `Configuring` (configuring.dfy) models src/modes/configuring.rs:
  - discovery;
  - the scan passes and the candidate slots;
  - taking the chosen devices out of the pool with `swap_remove`;
  - the pairing loop;
  - the capture and release of all units.
- `Operating` (operating.dfy) models src/modes/operating.rs, one forwarding
  pass.
- `Modes` (modes.dfy) models src/modes/mod.rs: the modes, their texts, and
  the `configure` and `operate` pipelines.
- `Daemon` (daemon.dfy) models the main loop of src/main.rs.

Inputs from the hardware are parameters:

- a directory listing whose entries carry the result of opening and probing
  the node;
- a sequence of scan passes for the pairing;
- a `TickEnv` per unit for forwarding: the next event or error of each
  device, how many writes the virtual device accepts, and whether the clock
  can be read.

The pairing's busy wait and the endless main loop are driven by finite
sequences of such inputs. Running out of them is reported as its own
outcome (`Stalled`, `RoundsUsed`); the program would go on waiting or
looping there.

The loops of the source stay loops: `AwaitChord`, `ScanPass`,
`MakePairings`, `EachUnit`, `EmulateSingle`, `ResetLeds` and `Run`. Each is
proved against a function: `SlotsBetween` and `FirstReady`, `ScanUpTo`,
`PairingSpec`, `GrabPass`, `FirstFailedTick`, `ResetSpec` and `Next`.
Lemmas state what those functions mean.

Some behaviour of the code is easy to misread. The model follows the code:

- Not every indicator write failure is harmless. During unit creation
  (`from`) and while the player index is set (`set_player_id`), the error
  is returned with `?`. That error ends the pairing and `configure`. A
  device without a recognisable indicator directory gives `NotFound` at the
  same points. Only the reset to 0 at the start of `configure` ignores
  failures: it prints them and goes on.
- Event reads do not block. The devices are opened with `O_NONBLOCK`, so a
  read with nothing pending fails. During pairing that device is skipped
  for the pass. During forwarding it ends the tick and the pass with that
  error. That would end the daemon if units reached operating mode, which
  they do not (next point).
- Units never leave operating mode. `main` re-binds `controllers` to an
  empty list at the top of every iteration. The units formed by
  `configure` are therefore dropped at the end of the configuring
  iteration, without a release call, and every operating iteration runs
  `operate` on the empty list. That pass always succeeds, so operating mode
  never ends.
- Player indices repeat after 256 units. They are an `i32` counter cast
  `as u8`, so unit k gets index (k + 1) mod 256: units 0 to 254 get 1 to
  255, unit 255 gets 0, and unit 256 gets 1 again.
- A unit's capture tolerates a failure on the right device. On success,
  `configure` has made one grab call per member and every unit's grab
  succeeded in the source's sense: the left device's call succeeded, and a
  failure on the right device is only printed.

## Model

| member | source | states |
|---|---|---|
| `Procon.Decimal` | src/procon/mod.rs:183 | the player index is rendered as one or more decimal digits with no leading zero; a single digit exactly for indices below 10 |
| `Procon.DecimalRoundTrip` | src/procon/mod.rs:183 | the digits written to the indicator file read back as the player index |
| `Procon.ByteDecimalLength` | src/procon/mod.rs:183 | a `u8` index takes at most three digits |
| `Procon.ProcBase` | src/procon/mod.rs:142-166 | an indicator directory exists exactly for a recognised vendor/product with a name; it is "/proc/procon/controller" followed by the name with the product's prefix length and the last character cut off |
| `Procon.DriverNameGivesIndexDirectory` | src/procon/mod.rs:148-162 | a name in the driver's format (prefix, index, "]") gives the controller directory of that index |
| `Procon.ProcBaseIgnoresPrefixText` | src/procon/mod.rs:149-161 | the prefix text is never compared: names of equal length that differ only in the prefix give the same directory |
| `Procon.SetLedSpec` | src/procon/mod.rs:168-186 | the calls and result of `set_led`: no call and NotFound without an indicator directory, otherwise one indicator write whose outcome is the result; `SetLedWritesIndex` states what is written |
| `Procon.SetLedWritesIndex` | src/procon/mod.rs:168-186 | without a directory there is no write and the result is NotFound; otherwise exactly one write to "<dir>/led", whose text reads back as the index and whose success is the result |
| `Procon.AllLedsSpec` | src/procon/mod.rs:188-197 | the calls and result of `set_all_leds`: the left device's `set_led`, then the right device's only when it exists and the left one succeeded; `AllLedsOutcome` states when it succeeds |
| `Procon.AllLedsOutcome` | src/procon/mod.rs:188-197 | setting both indicators succeeds exactly when each device present has a directory and each write succeeds; then the writes are left first, then right, each of the index; a left device without a directory gives NotFound and no write |
| `Procon.AllLedsNoGrabCalls` | src/procon/mod.rs:188-197 | setting the indicators makes no grab or release call |
| `Procon.VirtualFor` | src/procon/mod.rs:30-133 | the virtual device has the left device's bus, vendor and product 0, eleven distinct buttons, six distinct axes, the hats in [-1, 1] and the sticks in [-32767, 32767] with fuzz 1000 and flat 2000 |
| `Procon.FromSpec` | src/procon/mod.rs:30-140 | the calls and result of `from`: the creation of the virtual device, whose failure is returned, then `set_all_leds(0)`, whose result is returned |
| `Procon.UnitGrabSpec` | src/procon/mod.rs:214-235 | the calls and result of a unit's grab or release; `UnitGrabCalls` states its order and errors |
| `Procon.UnitGrabCalls` | src/procon/mod.rs:214-235 | a unit's grab or release calls the left device first and the right one only if it exists and the left call succeeded; the result is an error exactly when the left call failed or, for a release, the right one did |
| `Procon.GrabReleaseAsymmetry` | src/procon/mod.rs:214-235 | when only the right device refuses, the unit's grab succeeds and its release fails |
| `Procon.TickSpec` | src/procon/mod.rs:237-260 | a tick reads both devices before writing anything and fails without emitting if a read fails; it succeeds exactly when the reads succeed, the clock can be read and every write is accepted, and then it emits the left event, the right event and a SYN_REPORT stamped with the clock; a clock failure gives Other after both relays |
| `Procon.ProController.constructor` | src/procon/mod.rs:16-28 | the unit holds its two devices, its virtual device and its player id, and has emitted nothing |
| `Procon.ProController.From` | src/procon/mod.rs:30-140 | the calls are the creation of the virtual device, then both indicators set to 0, stopping at the first failure, which is the result; on success a new unit with the given devices, the capability record of `VirtualFor`, player id 0 and nothing emitted |
| `Procon.ProController.SetLed` | src/procon/mod.rs:168-186 | the calls and the result are those of the indicator write of `set_led` |
| `Procon.ProController.SetAllLeds` | src/procon/mod.rs:188-197 | the left device's indicator first; the right one only when it exists and the left write succeeded |
| `Procon.ProController.SetPlayerId` | src/procon/mod.rs:207-212 | the id is stored before the writes, so it holds the new value even when they fail; the writes are those of `set_all_leds` |
| `Procon.ProController.Grab` | src/procon/mod.rs:214-224 | the calls and result of a unit's grab: a left failure is returned, a right failure is not |
| `Procon.ProController.Ungrab` | src/procon/mod.rs:226-235 | the calls and result of a unit's release: a failure of either device is returned |
| `Procon.ProController.ParseSingleEvent` | src/procon/mod.rs:237-260 | the events appended to the unit's virtual device and the result are those of one tick |
| `Configuring.Discover` | src/modes/configuring.rs:17-39 | discovery keeps at most one device per directory entry |
| `Configuring.DiscoverMembers` | src/modes/configuring.rs:17-39 | a device is discovered exactly when some entry was opened and probed as it and its vendor/product pair is in the identity set; entries that fail to list, open or probe contribute nothing |
| `Configuring.DiscoverAppend` | src/modes/configuring.rs:17-39 | discovery over a concatenated listing is the concatenation of the discoveries, so listing order is kept |
| `Configuring.GetDevices` | src/modes/configuring.rs:11-40 | a failure to list the directory is returned as is; otherwise the result is a success holding at most one device per entry, and a device is in it exactly when some entry opened and probed as it and its identity is recognised |
| `Configuring.Observe` | src/modes/configuring.rs:58-74 | a left shoulder event sets the left slot to the device's index when its value is 1 and empties it otherwise, a right shoulder event does the same to the right slot, and any other event or a failed read changes nothing |
| `Configuring.ScanUpTo` | src/modes/configuring.rs:52-74 | a slot changed by a scan holds the index of one of the devices scanned |
| `Configuring.LastRoleEvent` | src/modes/configuring.rs:58-74 | the position of the last event of a shoulder key in a pass, or the absence of any |
| `Configuring.ScanFollowsLastEvent` | src/modes/configuring.rs:58-74 | after a pass the slot reflects the last event of its key: a press puts that device's index in the slot, any other value empties it, with no such event the slot keeps its value; other codes and failed reads change nothing |
| `Configuring.ScanPass` | src/modes/configuring.rs:52-74 | the `for_each` over the pool computes the slots of one pass |
| `Configuring.SlotsBetween` | src/modes/configuring.rs:47-75 | the slots after the passes from the start of an attempt up to a position, each slot starting empty; every index held is a pool index |
| `Configuring.FirstReady` | src/modes/configuring.rs:51-75 | the first end position at or after j whose slots are both filled, if any; it lies after the attempt's first pass |
| `Configuring.FirstReadyIsFirst` | src/modes/configuring.rs:51-75 | no earlier end position fills both slots; when there is none, no position up to the last pass fills both |
| `Configuring.AwaitChord` | src/modes/configuring.rs:48-75 | the inner loop stops after the first pass that leaves both slots filled, and only then, returning the two slot indices and the position `FirstReady` gives; it fires only after at least one pass; if the passes run out first nothing fires |
| `Configuring.SwapRemove` | src/modes/configuring.rs:77-86 | the element at i is returned and the last element takes its place, the others keep theirs |
| `Configuring.SwapRemoveKeepsElements` | src/modes/configuring.rs:77-86 | `swap_remove` loses and adds no element |
| `Configuring.TakeUnit` | src/modes/configuring.rs:77-86 | the left device is the one the left slot named; there is no right device exactly when both slots named the same device; the pool shrinks by the devices taken |
| `Configuring.TakeUnitKeepsDevices` | src/modes/configuring.rs:77-86 | the devices taken and the pool left are together the pool's devices |
| `Configuring.TakenFromPool` | src/modes/configuring.rs:77-86 | the devices taken and the pool left come from the pool |
| `Configuring.RightDevicePosition` | src/modes/configuring.rs:79-86 | the right device comes from position r when l > r; when l < r from r - 1, or from the last position when r - 1 == l |
| `Configuring.RightDeviceIsSlotDeviceIff` | src/modes/configuring.rs:79-86 | for distinct devices, the right device taken is the one the right slot named exactly when l > r, or when l and r are the last two positions in that order |
| `Configuring.ThreeDevicePoolTakesMiddleDevice` | src/modes/configuring.rs:82-83 | a left press on the first of three devices and a right press on the last give the middle device as the right device |
| `Configuring.MixesProCon` | src/modes/configuring.rs:88-92 | the sanity check: a right device is present and one of the two devices is a ProCon; `PlanNeverMixes` states that no unit formed satisfies it |
| `Configuring.RejectionAccounting` | src/modes/configuring.rs:88-98 | pushing both devices back after a rejected ProCon pairing keeps every device in the pool or in a unit, as often as it was listed |
| `Configuring.TakeUnitAccounting` | src/modes/configuring.rs:77-118 | moving the devices taken into a unit keeps every device in the pool or in a unit, as often as it was listed |
| `Configuring.SameDevicesIsPermutation` | src/modes/configuring.rs:42-123 | listings holding each device equally often are permutations of each other |
| `Configuring.PlayerIndex` | src/modes/configuring.rs:44-119 | the `i32` counter starting at 1 cast `as u8`: units 0 to 254 get indices 1 to 255, and index 0 comes exactly at every 256th unit |
| `Configuring.FormUnitSpec` | src/modes/configuring.rs:116-117 | the calls and result of `from` followed by `set_player_id`; `FormUnitOutcome` and `FormUnitCalls` state what they are |
| `Configuring.FormUnitCalls` | src/modes/configuring.rs:116-117 | forming a unit makes no grab call and fails only with a kernel error or a missing indicator directory |
| `Configuring.FormUnitOutcome` | src/modes/configuring.rs:116-117 | forming a unit succeeds exactly when the virtual device is created, every member has an indicator directory and all writes succeed; then the calls are the creation, each member's indicator written 0, then each written the player index, left before right |
| `Configuring.FormUnit` | src/modes/configuring.rs:116-117 | the calls and result of `from` followed by `set_player_id`; on success a new unit of the two devices that satisfies the unit invariant for its position |
| `Configuring.AddUnit` | src/modes/configuring.rs:116-119 | the calls and result are those of `FormUnitSpec` with the next player index; a formed unit is appended after the earlier ones, which are unchanged, and its members follow theirs; failures are kernel errors or NotFound; no grab call is made |
| `Configuring.PairingSpec` | src/modes/configuring.rs:42-123 | the pairing from a pool, a pass position and a unit count: its pairs, its calls and how it ends; an empty pool ends it with every device paired, otherwise an attempt is made |
| `Configuring.AwaitSpec` | src/modes/configuring.rs:48-86 | an attempt stalls when no end position fills both slots; otherwise it takes the devices of the first chord out with `swap_remove` |
| `Configuring.AttemptSpec` | src/modes/configuring.rs:88-98 | a ProCon taken with another device is pushed back, left then right, and the pairing goes on from the next pass with no call and no unit; otherwise the unit is formed |
| `Configuring.FormSpec` | src/modes/configuring.rs:100-119 | a failure to form the unit ends the pairing with that error and the calls made; otherwise the pair is the next unit and the pairing goes on from the rest of the pool with the next player index |
| `Configuring.PlanNeverMixes` | src/modes/configuring.rs:88-98 | no pair of the plan joins a ProCon with another device |
| `Configuring.FormNeverMixes` | src/modes/configuring.rs:88-119 | a unit that passed the sanity check is followed only by units that pass it |
| `Configuring.MakePairings` | src/modes/configuring.rs:42-123 | the calls are exactly the plan's; the result is Formed, Stalled or Failed with its error exactly as the plan ends; the units' devices are the plan's pairs in order; an empty listing gives no units and no call; on success the members are exactly the listed devices, each as often, and unit k has player index (k + 1) mod 256, no ProCon mixed with another device, the capability record of its left device and nothing emitted; no call is a grab; errors are kernel errors or NotFound |
| `Configuring.PairStep` | src/modes/configuring.rs:47-120 | one iteration of the outer loop keeps the loop invariant: the calls so far and the rest of the plan make up the whole plan, and the units so far and the plan's remaining pairs make up its pairs; a stop is the plan's own end with all its calls made |
| `Configuring.PairOnce` | src/modes/configuring.rs:48-119 | one attempt: a stall makes no call and is the plan's stall, a failure is the plan's failure with its calls; otherwise it consumes at least one pass, and the calls and the new units are the plan's first steps, after which the rest of the plan is the plan from the new state |
| `Configuring.FormStep` | src/modes/configuring.rs:100-119 | forming the unit of a taken pair makes the calls of `FormSpec`; a failure is its failure; on success the new unit's pair is the plan's next pair and the rest of the plan follows from the rest of the pool |
| `Configuring.GrabPass` | src/modes/configuring.rs:125-139 | the calls and result of a grab or release pass: unit by unit in order, stopping at the first unit whose call fails; the lemmas below state its calls and result |
| `Configuring.GrabPassStep` | src/modes/configuring.rs:126-128 | a unit after a prefix that succeeded adds that unit's calls and result |
| `Configuring.GrabPassStopsAtFailure` | src/modes/configuring.rs:126-128 | once a unit fails, the later units are not called |
| `Configuring.GrabPassCalls` | src/modes/configuring.rs:125-139 | the calls of a pass are calls on the members in unit order, left before right, one per member when the pass succeeds |
| `Configuring.GrabPassResult` | src/modes/configuring.rs:125-139 | a failed pass ends with the failing call and returns a kernel error; a successful release pass had every call succeed |
| `Configuring.PairsPass` | src/modes/configuring.rs:125-139 | the calls and result of a grab or release pass stated over the units' pairs of devices; `GrabPassIsPairsPass` states that it is the pass over the units |
| `Configuring.GrabPassIsPairsPass` | src/modes/configuring.rs:125-139 | a pass over units makes exactly the calls, with the same result, as the pass over their pairs of devices, since a pass reads nothing of a unit but its two devices |
| `Configuring.UnitCall` | src/modes/configuring.rs:126-135 | one unit's grab or release, as the mode says |
| `Configuring.EachUnit` | src/modes/configuring.rs:125-139 | the loop over the units makes the calls of the pass and returns its result |
| `Configuring.GrabAllControllers` | src/modes/configuring.rs:125-131 | the calls and result of a grab pass over the units |
| `Configuring.UngrabAllControllers` | src/modes/configuring.rs:133-139 | the calls and result of a release pass over the units |
| `Operating.FirstFailedTick` | src/modes/operating.rs:3-9 | every tick before the returned position succeeds and the tick at it, if any, fails |
| `Operating.FirstFailedTickStops` | src/modes/operating.rs:4-6 | the first failure is the first position whose tick fails |
| `Operating.EmulateSingle` | src/modes/operating.rs:3-9 | the units tick in list order up to and including the first failing one, each emitting what its tick emits; that unit's error is returned; later units emit nothing; Ok exactly when every tick succeeded; no player id changes |
| `Modes.Display` | src/modes/mod.rs:13-23 | the text each mode is shown as; `DisplayIsInjective` states that the text tells the mode |
| `Modes.DisplayIsInjective` | src/modes/mod.rs:13-23 | every mode has its own text |
| `Modes.ResetSpec` | src/modes/mod.rs:30-37 | the calls of setting every device's indicator to 0 in order, each device attempted whatever the earlier results; the lemmas below state what is written |
| `Modes.ResetWritesOnlyIndicators` | src/modes/mod.rs:31-37 | the reset writes indicator files only, at most one per device |
| `Modes.ResetWritesEveryDevice` | src/modes/mod.rs:31-37 | when every device has a directory, device i gets the write of index 0 at log position at + i, whatever happened to the earlier writes |
| `Modes.ResetLeds` | src/modes/mod.rs:31-37 | the loop over the devices makes the writes of the reset and ignores their results |
| `Modes.Captured` | src/modes/mod.rs:39-46 | how the pairing plan's end decides the result: a stall or pairing error is the result and nothing is captured; when every device is paired the units hold the plan's pairs and the capture pass over them follows, and its error is the result |
| `Modes.GrabPassBounds` | src/modes/configuring.rs:125-131 | a capture pass makes only capture calls, one per member when it succeeds, and fails only with the kernel's error |
| `Modes.PairedAndCaptured` | src/modes/mod.rs:39-46 | `Captured` for the plan of `PairingSpec`, together with the bounds on the calls and errors of the two stages and, on success, units that cover the devices exactly, with one capture call per member, where a failed capture of a right device does not fail the pass |
| `Modes.PairAndCapture` | src/modes/mod.rs:39-46 | `PairedAndCaptured` holds of the pairing and the capture: the pairing's calls are its plan's; a stall or pairing error is returned and nothing is captured; when every device is paired, the units are the plan's and the capture pass over them follows, and its error is the result; no devices means no units and no call; on success there is one capture call per member, and a failed capture of a right device does not fail the pass |
| `Modes.Configure` | src/modes/mod.rs:25-47 | the stages run in order: discovery, indicator reset, pairing, capture; a discovery error is returned with no call made; after a successful discovery the discovered devices are returned, the reset attempts every discovered device whatever fails and writes each device that has an indicator directory, its failures never stop the pairing, and the pairing and capture are those of `PairedAndCaptured` over the discovered devices; nothing discovered gives no units and no call |
| `Modes.Operate` | src/modes/mod.rs:49-53 | Ok exactly when the forwarding pass is Ok, with the same emissions |
| `Daemon.Next` | src/main.rs:15-36 | the step of one iteration from its mode and what it observed; the lemmas below state its transitions |
| `Daemon.NextIsAllowed` | src/main.rs:15-36 | configuring goes to dormant or operating; operating only stays; dormant goes to configuring or stays |
| `Daemon.ConfiguringTransitions` | src/main.rs:16-25 | configuring goes dormant exactly when zero units were formed and to operating exactly when some were; the loop ends exactly when configure fails, and then with its error; it hangs exactly when the pairing waits for ever |
| `Daemon.OperatingStays` | src/main.rs:26-28 | operating stays operating exactly when the pass succeeds; otherwise the loop ends with that pass's error |
| `Daemon.DormantTransitions` | src/main.rs:29-35 | dormant goes to configuring exactly when the discovery finds a device and stays dormant exactly when it finds none |
| `Daemon.OperatingIsAbsorbing` | src/main.rs:12-37 | once the loop is operating, every later iteration is operating |
| `Daemon.Observed` | src/main.rs:13-36 | what each mode's branch observes on the host: operating succeeds on the empty list; dormant observes the discovery; configuring observes a discovery error as its result, an empty discovery as zero units, and otherwise ends as `ConfigureRound` says |
| `Daemon.ConfigureRound` | src/modes/mod.rs:25-47 | a configuring round after a successful discovery ends as `PlanEnds` says of the round's pairing plan, which starts after the reset attempted on every device |
| `Daemon.PlanEnds` | src/modes/mod.rs:39-46 | a stall or pairing error of the plan is the result; when every device is paired, the result is formed exactly when the capture pass over the plan's pairs succeeds, its units hold those pairs, and otherwise it is the pass's error |
| `Daemon.ConfigureCalls` | src/modes/mod.rs:25-47 | the round's calls are the reset's followed by those of `PlanCalls` for the round's pairing plan |
| `Daemon.PlanCalls` | src/modes/mod.rs:39-46 | after the reset come the plan's calls; when every device is paired the capture pass's calls over the plan's pairs follow, and otherwise no call |
| `Daemon.Iteration` | src/main.rs:13-36 | `Observed` holds of what it observes: operating runs `operate` on a fresh empty list, which succeeds; dormant observes the discovery; configuring observes a discovery error as its result and an empty discovery as zero units; after a successful discovery its observation and its calls are those of `ConfigureRound` and `ConfigureCalls`: reset, pairing, and the capture pass when every device is paired, whose success gives the units and whose error is the result; any other round makes no call; no call releases a device |
| `Daemon.ObservedIteration` | src/main.rs:13-36 | iteration k adds its observation, at its starting log entry, to those of the earlier iterations |
| `Daemon.ConfigureGivesRound` | src/modes/mod.rs:25-47 | what `configure` promises after a successful discovery gives the round's observation and calls in terms of `ResetSpec`, `PairingSpec` and `PairsPass` |
| `Daemon.CapturedEnds` | src/modes/mod.rs:39-46 | the capture stated over units (`Captured`) gives `PlanEnds` and `PlanCalls`, the capture stated over the plan's pairs |
| `Daemon.Run` | src/main.rs:10-40 | the first mode is configuring and each mode follows from the previous iteration's observation; round i starts at log entry starts[i], in order; operating iterations always succeed and dormant ones observe the discovery of their round; each configuring round's observation is as `ConfigureRound` says, including the capture pass's success or error, and the next mode follows `Next` on it; a configuring round whose discovery finds nothing is followed by dormant mode; the loop ends only with an error of configure or the discovery, or a pairing that waits for ever, never while operating; no call ever releases a device |
| `Daemon.EmptyDiscoveryGoesDormant` | src/main.rs:16-22 | in a chain of observed iterations, a configuring round whose discovery finds nothing is followed by dormant mode |

## Left out

- Printing is not modelled: the `println!` messages of pairing, grab and `configure`.
- The 60-second `thread::sleep` in dormant mode is not modelled, because the model has no clock.
- The endless `loop` of `main` is driven by a finite sequence of rounds. When the rounds run out, `Run` returns `RoundsUsed`.
- The pairing's busy wait is driven by a finite sequence of scan passes. When the passes run out before a chord, the result is `Stalled`, where the program would wait for ever.
- The foreign calls are oracles.
  - Reading the directory, opening with `O_NONBLOCK` and `Device::new_from_file` become the listing's `Probe` results.
  - `next_event` is a given event or failure, and the read status it also returns is ignored, as the code ignores it.
  - `write_event` is a count of accepted writes.
  - `SystemTime::now` conversion is an optional clock value.
- The virtual device's set-up is one creation call in the host log. The `enable` calls (src/procon/mod.rs:39-58) and `create_from_device` (line 135) can fail with `?`; the model folds these failures into the one creation outcome. The `set_abs_info` calls have no `?` and their results are dropped, so they are part of the capability record only. That record is kept as a value (`VirtualFor`).
- `set_led` opens the indicator file and then writes it, each with `?`. The model logs the two as one indicator write, which fails when either would. The write is `write`, not `write_all`, so it may write only a prefix of the text and still succeed; the model takes a partial write as a full one.
- Panics become preconditions. A device name too short for the prefix slice of `get_proc_base` is excluded by `NameFits`. `UninitDevice::new().unwrap()` is assumed to succeed.
- ProcBase: the Rust slice of the device name uses byte offsets (the prefix's `len()` and `name.len() - 1` count UTF-8 bytes), while the model cuts characters. For an ASCII name the two agree. For a name with non-ASCII characters the model's directory differs from the code's, and a cut inside a multi-byte character, where the code panics, is not modelled.
- Dropping a `ProController` closes its devices, and the kernel then ends the grab. Closing is not modelled. `Run` shows only that no explicit release call is ever made.
- `get_devices` and `get_devices_mut` of `ProController` and the `Debug`/`PartialEq` derivations of the mode are not modelled; they are accessors the modelled members use directly.
- The `i32` player counter would overflow after 2^31 units; only its cast to `u8` is modelled.
- The pairing's reads are a sequence of scan passes, each giving for every pool position the event read there or a failed read. A device's events are thus indexed by its position in the pool at the time of the pass, as the `enumerate` of the code indexes them.
- MakePairings: does not state that the units are distinct, newly allocated objects. `FormUnit` states freshness for one unit; carrying it through the loop is left out.
- Run: states each round's observation, at the log entry where the round starts, but not which log entries each round's calls take; `Iteration` states the calls of one round.
- EmulateSingle: requires the units to be distinct objects, as the values in a Rust `Vec` are.
- Discover: its own contract states only the length bound. Membership is stated in `DiscoverMembers`, and order in `DiscoverAppend`.
