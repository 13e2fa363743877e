# A verified model of lccd

`lccd` is a control daemon for one laptop model: it takes requests for modes, power limits, fan tables and fan
boost, routes them to the Linux power interfaces ("standard") and to the vendor's embedded controller ("amw0"),
and publishes what it believes the machine's state to be. This project models the daemon's core in Dafny and
proves what its design relies on. `dafny verify dfyconfig.toml` checks all of it.

## What is modelled

* **EC write programs** (`Plan`, `PlanBuilders`, `FanTable`, `EcMemory`, `FanImage`, `Packet`, `FanProgramming`).
  Plans are objects over a fixed array of 128 actions. EC memory is a sequence of 65536 bytes; the firmware decodes
  the AC00 buffer as CURRENT-FINDINGS.md lines 22-28 lay it out. Compiling a fan table, interpreting the plan, printing
  every packet and reading it on the firmware side is proved to put the table into 0xF00..0xF5F and nothing anywhere else.
* **The AMW0 backend** (`Amw0`, `Amw0Ops`, `Amw0Backend`, `Amw0Theorems`, `ControlRuns`). A cache over EC bytes: the
  class works in place and every method equals a function of the old state and of the environment of the call.
  The environment may refuse any read or write, and may let a write land whose reply is lost.
* **The standard backend** (`Standard`, `StandardBackend`, `Powercap`, `PowercapTheorems`, `Hwmon`). A powercap
  tree whose driver may refuse a write, store another value, or store it and report an error; sensors in arbitrary listing
  order; and the profile file.
* **The converged backend** (`Overlay`, `Converged`, `PowerPair`, `PowerStore`). Routing, splitting and overlaying over
  two arbitrary operation tables, with a log of backend calls; then the two real backends.
* **The daemon** (`Transaction`, `Manager`, `Attributions`, `DaemonSoundness`, `PairSoundness`, `ConvergedSoundness`,
  `Mock`, `MockRuns`). The executor and the state reader over an arbitrary backend, given as a table of functions from
  context to new context, status and result; runs in which every call may meet another behaviour; refinement to a store
  of one target over the mock; and soundness of every published attribution over the real pair.
* **The text layer** (`Keys`, `JsonText`, `StateText`, `Renderer`, `Scanner`, `StateScan`, `Numbers`, `Loader`,
  `LoaderTheorems`, `LoaderImage`, `FanJson`, `FanJsonTheorems`, `FanJsonTables`). The renderer's row of fixed
  buffers, the CLI's scanner, and the INI and JSON loaders, each with its inverse.

C strings are sequences of characters, buffers are length-limited types, `snprintf` is a truncating copy, bytes and
words are ranges of integers with every wrap written out. Files, sysfs, `/proc/acpi/call` and directory order are
parameters of the call that uses them.

## Where the code and its promises part

Each of these is a lemma, with the exact condition under which the promise holds.

* A converged read succeeds on the standard half alone when AMW0 has no live byte; every limit only AMW0 knows is then
  missing from the published state (`PowerStore.OneStore`, `PowerStore.TwiceBlind`, `PowerStore.UnansweredReadDropsPl4`).
* A limit whose EC byte could not be read before and can be read now appears in the published state although nobody asked
  for it (`PowerStore.OneStore`, `PowerStore.NewlyReadPl4Appears`).
* A mode or boost write that cannot read 0x751 and has never known it starts from a byte made up from the shadow, so the
  first boost toggle may change the mode and the first mode change the boost. What a run keeps, and when, is
  `ControlRuns.ModeAndBoostIndependent` and `ControlRuns.IndependentExactly`; the failing inputs are
  `ControlRuns.UnreadBoostLosesMode` and `ControlRuns.UnreadModeLosesBoost`.
* A failed mode change or boost toggle has already replaced the shadow control byte by the one it read, but not the shadow
  profile and boost, so they may part (`ControlRuns.AgreementThroughout`, `ControlRuns.FailedModeCanDisagree`).
* A JSON fan table named "gpu" gets its CPU curve for both, and one named like its second flag gets the first flag's value
  for it (`FanJsonTables.SheetLoads`; failing inputs: `FanJsonTables.NamedLikeItsCurve`, `FanJsonTables.NamedLikeItsFlag`).
* A failed send does not mean the byte did not land: the call node is opened again to fetch the reply, and that may
  fail after the write went through. The failing write is then in EC memory after all
  (`Amw0.RunStepsConsistent`, `FanProgramming.FanTableCrashConsistent`, `FanProgramming.LostReplyProgramsAnyway`).
* Source-iff-present attribution holds exactly while an opened platform_profile file is not empty (`Standard.ReadIsSound`).
* An answer without a usable backend name is dropped, and the old marks, live ones included, stay (`Transactions.RefreshFailure`).
* A powercap tree in which both constraints resolve to one file refuses two different values, however faithful the driver
  (`PowercapTheorems.FaithfulSucceeds`).
* The anchor "thermal" finds the attribution of the thermal values instead of the values (`StateScan.ThermalScanFindsAttribution`).

## Model

| member | source | states |
|---|---|---|
| Plans.Plan.constructor | kuangshi16pro-lcc/src/core/profile/plan.c:3-7 | a fresh plan is valid and empty |
| Plans.Plan.Reset | kuangshi16pro-lcc/src/core/profile/plan.c:3-7 | the plan becomes empty |
| Plans.Plan.Append | kuangshi16pro-lcc/src/core/profile/plan.c:9-60 | one action goes to the end, or BUFFER_TOO_SMALL and nothing changes, exactly when all 128 slots are taken |
| Plans.Plan.AppendAll | kuangshi16pro-lcc/src/core/profile/plan.c:62-79 | the whole source plan goes to the end in order, or none of it when it does not fit |
| FanTables.Validate | kuangshi16pro-lcc/src/core/fan/table.c:17-41 | comparing neighbours in one loop decides legality of every point and monotonicity between every two points; empty name is INVALID_ARGUMENT, anything else wrong is RANGE |
| FanTables.DemoPoint | kuangshi16pro-lcc/src/core/fan/table.c:56-69 | the 8-bit arithmetic of a built-in point never wraps and never reaches the duty clamp |
| FanTables.BuildDemo | kuangshi16pro-lcc/src/core/fan/table.c:43-72 | the built-in table validates under every non-empty name |
| PlanBuilders.FanProgram | kuangshi16pro-lcc/src/core/fan/table-apply.c:22-134 | every fan program has exactly 100 actions |
| PlanBuilders.AppendColumn | kuangshi16pro-lcc/src/core/fan/table-apply.c:50-57 | one counting loop appends its writes in index order at consecutive addresses |
| PlanBuilders.AppendFanHead | kuangshi16pro-lcc/src/core/fan/table-apply.c:38-107 | stages and six columns land in the plan in program order |
| PlanBuilders.BuildFanPlan | kuangshi16pro-lcc/src/core/fan/table-apply.c:22-134 | a table compiles exactly when it validates; otherwise its status is returned and the plan kept |
| PlanBuilders.AppendLimit | kuangshi16pro-lcc/src/core/power/limits.c:31-60 | a present field appends its one write, an absent field nothing |
| PlanBuilders.BuildPowerPlan | kuangshi16pro-lcc/src/core/power/limits.c:15-63 | present limits compile to one write each in PL1, PL2, PL4, TCC order; no present limit is INVALID_ARGUMENT |
| PlanBuilders.BuildModePlan | kuangshi16pro-lcc/src/core/profile/mode-profile.c:47-114 | a mode compiles to its five stages and never fails |
| PlanBuilders.BuildProfilePlan | kuangshi16pro-lcc/src/core/profile/mode-profile.c:116-165 | a document compiles exactly when it has a part and its parts are valid; the plan is the concatenation of the parts' plans with at most 110 actions, so the array never overflows |
| EcMemory.EffectsConcat | kuangshi16pro-lcc/src/backends/amw0/backend.c:593-632 | running two programs in a row is running their concatenation |
| EcMemory.EffectsFrame | kuangshi16pro-lcc/src/backends/amw0/backend.c:574-591 | an address no action writes keeps its byte |
| EcMemory.EffectsPointwise | kuangshi16pro-lcc/src/backends/amw0/backend.c:574-591 | the byte at an address depends only on its old byte and the program |
| EcMemory.EffectsCommute | kuangshi16pro-lcc/src/core/profile/mode-profile.c:116-165 | programs over disjoint addresses have the same effect in either order, from any memory |
| EcMemory.ColumnEffects | kuangshi16pro-lcc/src/core/fan/table-apply.c:50-57 | a column puts each value at base plus index and touches exactly its own range |
| FanImage.HeadEffects | kuangshi16pro-lcc/src/core/fan/table-apply.c:38-107 | after the six columns each curve column reads back from its own base, and only 0xF00..0xF5C was touched |
| FanImage.FanProgramCorrect | kuangshi16pro-lcc/src/core/fan/table-apply.c:22-134 | for every table and memory, 0xF00..0xF5F decodes to the table afterwards and every other address is unchanged |
| FanImage.ImageDeterminesTable | kuangshi16pro-lcc/src/core/fan/table-apply.c:96-107 | the region determines the table up to its name and the last three GPU duties, which have no byte |
| FanImage.PartsAreDisjoint | kuangshi16pro-lcc/src/core/profile/mode-profile.c:116-165 | the parts of a profile plan share no address |
| FanImage.ProfilePartsCommute | kuangshi16pro-lcc/src/core/profile/mode-profile.c:116-165 | a profile plan's memory effect is its parts' effects in either order |
| FanImage.FanHeadAscends | kuangshi16pro-lcc/src/core/fan/table-apply.c:38-107 | the six columns are written to ever higher addresses |
| FanImage.FanProgramAscends | kuangshi16pro-lcc/src/core/fan/table-apply.c:22-134 | a fan program writes every address of its region at most once, in ascending order |
| FanImage.ProfilePlanAscends | kuangshi16pro-lcc/src/core/profile/mode-profile.c:116-165 | the write addresses of every profile plan are pairwise distinct, and ascending |
| Packets.FormatExpr | kuangshi16pro-lcc/src/backends/amw0/wmbc-pack.c:5-31 | the buffer holds the packet text cut to its capacity; formatting fails exactly when it does not fit, and never into 256 characters |
| Packets.PacketLength | kuangshi16pro-lcc/src/backends/amw0/wmbc-pack.c:16-30 | every packet prints to 224 or 225 characters |
| Packets.PacketRoundTrip | kuangshi16pro-lcc/src/backends/amw0/wmbc-pack.c:5-31 | an independent reader recovers the slot and all 40 bytes from the text of any packet |
| Packets.PacketTextInjective | kuangshi16pro-lcc/src/backends/amw0/wmbc-pack.c:5-31 | packets with the same text are the same packet, so SA bytes and route survive |
| Packets.EcWriteLands | kuangshi16pro-lcc/src/backends/amw0/transport.c:213-240 | for any address and value the low/high split, the printing and the firmware's reading store exactly that byte |
| Amw0.RunSteps | kuangshi16pro-lcc/src/backends/amw0/backend.c:593-632 | a write sequence succeeds exactly when it ran to its end |
| Amw0.RunStepsConsistent | kuangshi16pro-lcc/src/backends/amw0/backend.c:538-553 | crash consistency of any write sequence, exactly: the writes before the failing one are in EC memory, and the failing one too if and only if it was sent and only its reply was lost; nothing else moves but the counter |
| Amw0.RunStepsFailed | kuangshi16pro-lcc/src/backends/amw0/backend.c:600-629 | nothing after a failed write runs |
| Amw0.PlanStepsEffects | kuangshi16pro-lcc/src/backends/amw0/backend.c:593-632 | the interpreter's write sequence does to memory what the plan means |
| Amw0Ops.PlanStepsExist | kuangshi16pro-lcc/src/core/fan/table-apply.c:109-131 | the last write of every fan program is the control byte, under the fan-tail stage |
| FanProgramming.FanTableProgrammed | kuangshi16pro-lcc/src/backends/amw0/backend.c:847-893 | end to end: a successful fan apply leaves the region encoding the named table, every other byte as it was, and the shadow naming it |
| FanProgramming.ControlByteLast | kuangshi16pro-lcc/src/core/fan/table-apply.c:109-131 | after any number of writes either 0xF5F is untouched or the other 95 bytes are already final |
| FanProgramming.FanTableCrashConsistent | kuangshi16pro-lcc/src/backends/amw0/backend.c:593-632 | a failed fan apply names the k-th write: exactly the k-1 before it are in memory, and the k-th too if and only if it was sent and only its reply was lost; the stage is the one in force, the shadow is untouched, and 0xF5F was written only over 95 final bytes |
| FanProgramming.LostReplyProgramsAnyway | kuangshi16pro-lcc/src/backends/amw0/backend.c:593-632 | a failing family: when only the reply to the last write is lost the apply fails and the shadow keeps the old table, but the EC holds the whole new one |
| FanProgramming.InjectedFailure | kuangshi16pro-lcc/src/backends/amw0/backend.c:538-553 | a fully landed write fails only at the injected failure point |
| FanProgramming.FanTableDryRun | kuangshi16pro-lcc/src/backends/amw0/backend.c:538-553 | a dry run changes no EC byte |
| ControlRuns.BoostKeepsOtherBits | kuangshi16pro-lcc/src/backends/amw0/backend.c:799-845 | a boost toggle keeps the other seven bits and the decoded mode |
| ControlRuns.ModeTargetDecodes | kuangshi16pro-lcc/src/backends/amw0/backend.c:634-687 | a mode write decodes to that mode and keeps the boost bit |
| ControlRuns.BitsAreMasks | kuangshi16pro-lcc/src/backends/amw0/backend.c:105-121 | the integer reading of the bits is the bit-mask one |
| ControlRuns.WriteEvent | kuangshi16pro-lcc/src/backends/amw0/backend.c:247-264 | a successful mode or boost write, from any state, makes the EC byte of the one it started from (the live byte, else the shadow byte, else the reconstruction), and leaves EC, backend and shadow agreeing on it |
| ControlRuns.QuietEvent | kuangshi16pro-lcc/src/backends/amw0/backend.c:247-264 | every other operation or read, however it ends, leaves the EC byte alone, and what is known of it too unless it reads it |
| ControlRuns.BoostKeepsExactly | kuangshi16pro-lcc/src/backends/amw0/backend.c:799-845 | a boost toggle keeps the other seven bits of the EC byte exactly when the byte it started from has them |
| ControlRuns.ModeKeepsExactly | kuangshi16pro-lcc/src/backends/amw0/backend.c:634-687 | a mode change keeps the boost bit of the EC byte exactly when the byte it started from has it |
| ControlRuns.UnreadBoostLosesMode | kuangshi16pro-lcc/src/backends/amw0/backend.c:151-167 | a concrete failing case: with the byte unreadable and never known, the first boost toggle moves a machine in turbo mode to office |
| ControlRuns.UnreadModeLosesBoost | kuangshi16pro-lcc/src/backends/amw0/backend.c:151-167 | another: the first mode change switches a running boost off |
| ControlRuns.RunFrame | kuangshi16pro-lcc/src/backends/amw0/backend.c:538-553 | no write sequence, however it ends, disturbs an address it does not name |
| ControlRuns.PowerLeavesControl | kuangshi16pro-lcc/src/backends/amw0/backend.c:725-797 | power writes, failed or not, leave 0x751 and what is known about it alone |
| ControlRuns.FanTableLeavesControl | kuangshi16pro-lcc/src/backends/amw0/backend.c:847-893 | fan programs, failed or not, leave 0x751 and what is known about it alone |
| ControlRuns.ModeAndBoostIndependent | kuangshi16pro-lcc/src/backends/amw0/backend.c:634-687 | from any state, over every run of successful mode and boost writes mixed with anything else: from the first such write on, 0x751 decodes to the last mode and the last boost asked for (what was never asked for is as in the byte the first write started from), and the shadow byte, profile and boost agree with it |
| ControlRuns.IndependentExactly | kuangshi16pro-lcc/src/backends/amw0/backend.c:247-264 | counted from the byte the EC held at first, that holds if and only if mode and boost were each asked for or were the EC's own in the byte the first write started from, which is the EC's if it was read in time |
| ControlRuns.FailedModeAgreement | kuangshi16pro-lcc/src/backends/amw0/backend.c:634-687 | after a failed mode write shadow byte and shadow profile agree exactly when the byte it had read decodes to the shadow, or it had read none and they agreed before |
| ControlRuns.FailedBoostAgreement | kuangshi16pro-lcc/src/backends/amw0/backend.c:799-830 | the same for a failed boost toggle |
| ControlRuns.AgreementThroughout | kuangshi16pro-lcc/src/backends/amw0/backend.c:634-687 | over any run at all, whatever fails: shadow byte and published profile and boost agree throughout if and only if they agreed at the start and no control write failed after reading a byte that did not decode to the shadow |
| ControlRuns.FailedModeCanDisagree | kuangshi16pro-lcc/src/backends/amw0/backend.c:247-264 | a concrete case where they part: the firmware moved the byte, the next mode change reads it and fails to write |
| Amw0Theorems.ReadIsSound | kuangshi16pro-lcc/src/backends/amw0/backend.c:370-536 | every AMW0 read, whatever bytes are readable, publishes a snapshot whose sources match presence, whose live marks are exactly the bytes read and equal to them, and keeps the shadow in order |
| Amw0Theorems.MarksAreTrue | kuangshi16pro-lcc/src/backends/amw0/backend.c:370-536 | every live mark is the EC byte's own value |
| Amw0Theorems.RawMetaMarks | kuangshi16pro-lcc/src/backends/amw0/backend.c:280-337 | a component is marked live exactly when it was read |
| Amw0Theorems.SetModeKeeps | kuangshi16pro-lcc/src/backends/amw0/backend.c:634-687 | a mode change keeps the shadow sound, and untouched on failure |
| Amw0Theorems.SetBoostKeeps | kuangshi16pro-lcc/src/backends/amw0/backend.c:799-845 | a boost change keeps the shadow sound, and untouched on failure |
| Amw0Theorems.SetPowerKeeps | kuangshi16pro-lcc/src/backends/amw0/backend.c:725-797 | a power write keeps the shadow sound, and untouched on failure |
| Amw0Theorems.SetFanTableKeeps | kuangshi16pro-lcc/src/backends/amw0/backend.c:847-893 | a fan apply keeps the shadow sound, and untouched on failure |
| Amw0Theorems.OperationKeepsShadow | kuangshi16pro-lcc/src/backends/amw0/backend.c:895-905 | the same for every entry of the operation table |
| Amw0Class.Amw0Backend.WriteEcByte | kuangshi16pro-lcc/src/backends/amw0/backend.c:538-553 | one byte goes through counting, injection, packet text and firmware, and ends as the byte-level specification says |
| Amw0Class.Amw0Backend.CurrentModeControl | kuangshi16pro-lcc/src/backends/amw0/backend.c:247-264 | the byte a read-modify-write starts from, and what is remembered of it |
| Amw0Class.Amw0Backend.Commit | kuangshi16pro-lcc/src/backends/amw0/backend.c:266-278 | the shadow after a control write |
| Amw0Class.Amw0Backend.WriteSteps | kuangshi16pro-lcc/src/backends/amw0/backend.c:661-671 | the write sequence run in place is the specified one |
| Amw0Class.Amw0Backend.ApplyMode | kuangshi16pro-lcc/src/backends/amw0/backend.c:634-687 | in place, state and result are those of the specification function |
| Amw0Class.Amw0Backend.ApplyProfile | kuangshi16pro-lcc/src/backends/amw0/backend.c:689-704 | aliases become modes; unknown names are NOT_SUPPORTED with nothing changed |
| Amw0Class.Amw0Backend.ApplyFanBoost | kuangshi16pro-lcc/src/backends/amw0/backend.c:799-845 | in place, state and result are those of the specification function |
| Amw0Class.Amw0Backend.ApplyPowerLimits | kuangshi16pro-lcc/src/backends/amw0/backend.c:725-797 | in place, state and result are those of the specification function |
| Amw0Class.Amw0Backend.WritePlanByte | kuangshi16pro-lcc/src/backends/amw0/backend.c:574-591 | one plan write under the stage in force |
| Amw0Class.Amw0Backend.ApplyAction | kuangshi16pro-lcc/src/backends/amw0/backend.c:593-632 | one turn of the interpreter loop |
| Amw0Class.Amw0Backend.ApplyFanPlan | kuangshi16pro-lcc/src/backends/amw0/backend.c:593-632 | the interpreter loop ends exactly as the plan's write sequence does |
| Amw0Class.Amw0Backend.ApplyFanTable | kuangshi16pro-lcc/src/backends/amw0/backend.c:847-893 | load, compile, interpret and record, as the specification function |
| Amw0Class.Amw0Backend.ReadPowerField | kuangshi16pro-lcc/src/backends/amw0/backend.c:312-337 | one power field, live when readable and plausible |
| Amw0Class.Amw0Backend.ReadControl | kuangshi16pro-lcc/src/backends/amw0/backend.c:428-437 | profile and boost from the control byte |
| Amw0Class.Amw0Backend.ReadPowerFields | kuangshi16pro-lcc/src/backends/amw0/backend.c:438-484 | the four power fields |
| Amw0Class.Amw0Backend.ReadThermals | kuangshi16pro-lcc/src/backends/amw0/backend.c:485-505 | the thermal values |
| Amw0Class.Amw0Backend.ReadMarks | kuangshi16pro-lcc/src/backends/amw0/backend.c:507-528 | attribution of what was read and what was kept |
| Amw0Class.Amw0Backend.ReadDry | kuangshi16pro-lcc/src/backends/amw0/backend.c:409-426 | a dry run reads the shadow |
| Amw0Class.Amw0Backend.ReadLive | kuangshi16pro-lcc/src/backends/amw0/backend.c:428-536 | a live read |
| Amw0Class.Amw0Backend.ReadState | kuangshi16pro-lcc/src/backends/amw0/backend.c:370-536 | the whole read in place: new shadow, snapshot, status and result are those of the specification function |
| Amw0Class.Amw0Backend.constructor | kuangshi16pro-lcc/src/backends/amw0/backend.c:907-937 | the backend starts on the seeded shadow with no known control byte |
| Attributions.JoinAllIsJoin | kuangshi16pro-lcc/src/backends/backend.c:45-62 | merging is a join with top "mixed": empty exactly when all contributors are, the common name exactly when the non-empty ones agree, "mixed" otherwise |
| Attributions.JoinOrderIrrelevant | kuangshi16pro-lcc/src/backends/backend.c:45-62 | the summary does not depend on order or repetition |
| Attributions.Finalize | kuangshi16pro-lcc/src/backends/backend.c:319-380 | the clearing and merging loop computes the finalized attribution |
| Attributions.MergeFive | kuangshi16pro-lcc/src/backends/backend.c:357-379 | the five component merges are the join of the five |
| Attributions.FinalizeIdempotent | kuangshi16pro-lcc/src/backends/backend.c:319-380 | finalizing twice is finalizing once |
| Attributions.FinalizedSummaries | kuangshi16pro-lcc/src/backends/backend.c:319-380 | every summary is the join of what it summarizes, and components are not touched |
| Attributions.CacheSummary | kuangshi16pro-lcc/src/backends/backend.c:388-420 | summaries of cache-or-nothing components are cache or nothing |
| Attributions.MarkCachedSound | kuangshi16pro-lcc/src/backends/backend.c:388-420 | after a failed refresh every non-empty source is cache, values are unchanged, and sources still match presence |
| Overlays.LayPowerField | kuangshi16pro-lcc/src/backends/converged/backend.c:210-244 | the early returns of one field's overlay leave requested value, effective value and mark as the field rule says |
| Overlays.OverlayInPlace | kuangshi16pro-lcc/src/backends/converged/backend.c:246-344 | the assignments, made one after the other, end in a snapshot that shows the limits the route table lets through, is sound over an explained state, and is the state itself when that was sound and laid over itself |
| Overlays.OverlayIsSound | kuangshi16pro-lcc/src/backends/converged/backend.c:246-344 | overlaying a well-formed snapshot on an explained one is sound for every route table |
| Overlays.OverlayLimits | kuangshi16pro-lcc/src/backends/converged/backend.c:210-244 | which limit shows through, field by field |
| Overlays.OverlaySelf | kuangshi16pro-lcc/src/backends/converged/backend.c:246-344 | overlaying a sound snapshot on itself is the identity |
| Standard.ReadIsSound | kuangshi16pro-lcc/src/backends/standard/backend.c:86-171 | a successful standard read has a source for a value exactly when the value is present, if and only if platform_profile, when read, is not empty |
| Standard.ReadIsTrue | kuangshi16pro-lcc/src/backends/standard/backend.c:86-171 | live marks equal the file, the selected zone and the sensors met by the read, and the published limits are the zone's |
| Standard.SensorStepsTrue | kuangshi16pro-lcc/src/backends/standard/thermal.c:48-87 | after hwmon and the thermal zones every temperature and fan speed is the one that wins its role in hwmon, or the zone that fills the slot hwmon left free |
| Standard.HwmonShowsWinners | kuangshi16pro-lcc/src/backends/standard/hwmon.c:259-349 | the hwmon step publishes exactly the winners of the four roles |
| Standard.TempsFillFreeSlots | kuangshi16pro-lcc/src/backends/standard/thermal.c:63-83 | the zones fill the free slots in order and touch nothing else |
| Standard.CollectedIsExplained | kuangshi16pro-lcc/src/backends/standard/backend.c:86-171 | the same condition before the summaries |
| StandardClass.FillFromZones | kuangshi16pro-lcc/src/backends/standard/thermal.c:48-87 | the first readable zone fills the first free slot, the next the other; NOT_FOUND exactly when there is none |
| StandardClass.FillFromHwmon | kuangshi16pro-lcc/src/backends/standard/hwmon.c:259-349 | the winners of the scan become the thermal values |
| StandardClass.StandardBackend.ReadPowercap | kuangshi16pro-lcc/src/backends/standard/powercap.c:328-352 | status and limits of the selected zone |
| StandardClass.StandardBackend.ReadSensors | kuangshi16pro-lcc/src/backends/standard/backend.c:132-150 | the hwmon and thermal-zone steps, ending the read on a hard error |
| StandardClass.StandardBackend.FinishRead | kuangshi16pro-lcc/src/backends/standard/backend.c:151-171 | the powercap step, the any-source test and the summaries |
| StandardClass.StandardBackend.ReadState | kuangshi16pro-lcc/src/backends/standard/backend.c:86-171 | the whole read in place is the specified one |
| StandardClass.StandardBackend.StoreProfile | kuangshi16pro-lcc/src/backends/standard/platform_profile.c:160-180 | a successful write stores the text, a denied one nothing, and one whose close fails stores it and reports IO |
| StandardClass.StandardBackend.ApplyProfileName | kuangshi16pro-lcc/src/backends/standard/platform_profile.c:182-207 | aliases map to profile texts, anything else is NOT_SUPPORTED |
| StandardClass.StandardBackend.ApplyModeChoice | kuangshi16pro-lcc/src/backends/standard/platform_profile.c:160-180 | modes map to profile texts |
| StandardClass.StandardBackend.ApplyPowerLimits | kuangshi16pro-lcc/src/backends/standard/backend.c:189-198 | a power write in place is the specified one |
| Hwmon.TextContainsCi | kuangshi16pro-lcc/src/backends/standard/hwmon.c:73-106 | the nested loop decides exactly case-folded substring containment of a non-empty needle |
| Hwmon.CaptureAllWinner | kuangshi16pro-lcc/src/backends/standard/hwmon.c:229-239 | capturing in turn keeps the earliest entry of the greatest positive score |
| Hwmon.BestIsWinner | kuangshi16pro-lcc/src/backends/standard/hwmon.c:173-239 | each role gets the earliest top-scoring reading, or none when no score is positive |
| Hwmon.BestWins | kuangshi16pro-lcc/src/backends/standard/hwmon.c:259-349 | over a whole listing a candidate is present exactly when some reading wins the role, and holds its value |
| Hwmon.ScanChannel | kuangshi16pro-lcc/src/backends/standard/hwmon.c:298-323 | one channel number offers its temperature and fan to both roles each |
| Hwmon.ScanNode | kuangshi16pro-lcc/src/backends/standard/hwmon.c:284-324 | one node's channels in number order |
| Hwmon.Scan | kuangshi16pro-lcc/src/backends/standard/hwmon.c:259-349 | the nested scan gives every role its best reading over the whole listing |
| Powercap.ResolveConstraint | kuangshi16pro-lcc/src/backends/standard/powercap.c:131-171 | the first constraint of the preferred name with a file, else the fallback index if it has one |
| Powercap.FirstUsable | kuangshi16pro-lcc/src/backends/standard/powercap.c:139-158 | the first usable constraint, all earlier ones unusable |
| Powercap.CountCharLoop | kuangshi16pro-lcc/src/backends/standard/powercap.c:87-99 | the loop counts the occurrences |
| Powercap.CandidateScore | kuangshi16pro-lcc/src/backends/standard/powercap.c:101-129 | the accumulated score |
| Powercap.SelectZone | kuangshi16pro-lcc/src/backends/standard/powercap.c:173-233 | the first eligible entry of greatest score; NOT_FOUND exactly when no entry is eligible |
| Powercap.SelectedUnique | kuangshi16pro-lcc/src/backends/standard/powercap.c:173-233 | there is only one such entry |
| Powercap.SelectedExists | kuangshi16pro-lcc/src/backends/standard/powercap.c:173-233 | there is one as soon as any entry is eligible |
| Powercap.PackageZoneWins | kuangshi16pro-lcc/src/backends/standard/powercap.c:101-129 | any eligible package zone beats every other kind |
| Powercap.WattsRoundTrip | kuangshi16pro-lcc/src/backends/standard/powercap.c:246-264 | 1 to 255 W survive the microwatt encoding and the rounded decoding without 32-bit wrap |
| Powercap.ResolveAfterWrite | kuangshi16pro-lcc/src/backends/standard/powercap.c:131-171 | writing an existing limit never changes which constraint resolves |
| Powercap.SelectionAfterWrite | kuangshi16pro-lcc/src/backends/standard/powercap.c:173-233 | writing an existing limit never changes which zone is selected |
| Powercap.PowercapTree.WriteLimit | kuangshi16pro-lcc/src/backends/standard/powercap.c:398-442 | one limit write in place |
| Powercap.PowercapTree.WriteAndVerify | kuangshi16pro-lcc/src/backends/standard/powercap.c:398-469 | both writes and the readback in place |
| Powercap.PowercapTree.Apply | kuangshi16pro-lcc/src/backends/standard/powercap.c:354-469 | the whole apply in place is the specified one |
| PowercapTheorems.WriteSlotReads | kuangshi16pro-lcc/src/backends/standard/powercap.c:398-442 | a write keeps selection and resolution, and the other limit unless the two share a file |
| PowercapTheorems.ApplyOutcome | kuangshi16pro-lcc/src/backends/standard/powercap.c:354-469 | whatever the driver does, OK means every requested watt value reads back, even when both constraints resolve to one file; unrequested limits with their own file are undisturbed on any outcome |
| PowercapTheorems.SuccessOverwrites | kuangshi16pro-lcc/src/backends/standard/powercap.c:354-469 | with separate files a success overwrites the shown limits by exactly the requested fields |
| PowercapTheorems.FaithfulSucceeds | kuangshi16pro-lcc/src/backends/standard/powercap.c:354-469 | with a faithful driver an acceptable request succeeds exactly when every limit it names has a file and it does not ask two different values of one shared file |
| PowercapTheorems.RefusedUntouched | kuangshi16pro-lcc/src/backends/standard/powercap.c:366-387 | a request the tree cannot hold leaves it untouched; it is NOT_SUPPORTED exactly for PL4 or TCC |
| PowercapTheorems.ZoneNeverUnsupported | kuangshi16pro-lcc/src/backends/standard/powercap.c:398-469 | with both constraints present nothing else is NOT_SUPPORTED |
| Converged.RoutingCoherent | kuangshi16pro-lcc/src/backends/converged/backend.c:474-518 | for every route: probed capability, existence of a primary, and a non-empty published entry naming it are the same thing |
| Converged.CallsDisciplined | kuangshi16pro-lcc/src/backends/converged/backend.c:580-846 | every mutating call makes at most two backend calls; the second goes to the other backend, only after NOT_SUPPORTED or as the second half of a split; the executor is the last backend called, or mixed once both halves ran |
| Converged.RoutedDisciplined | kuangshi16pro-lcc/src/backends/converged/backend.c:580-621 | the same for one routed operation |
| Converged.SplitDisciplined | kuangshi16pro-lcc/src/backends/converged/backend.c:665-755 | the same for a split power write |
| Converged.PowerWrite | kuangshi16pro-lcc/src/backends/converged/backend.c:665-755 | the three ways a power write succeeds and the states they leave |
| Converged.ReadBoth | kuangshi16pro-lcc/src/backends/converged/backend.c:520-578 | a read both halves answer is the first snapshot with the second overlaid, stamped with the routes |
| Converged.ConvergedBackend.CallBackend | kuangshi16pro-lcc/src/backends/converged/backend.c:112-119 | one backend call, recorded in the call log |
| Converged.ConvergedBackend.ApplyByRoute | kuangshi16pro-lcc/src/backends/converged/backend.c:580-621 | the routed operation in place: state, result and call log are the specified ones |
| Converged.ConvergedBackend.ApplyPowerLimits | kuangshi16pro-lcc/src/backends/converged/backend.c:665-755 | the power write in place, split or routed |
| Converged.ConvergedBackend.ReadBackend | kuangshi16pro-lcc/src/backends/converged/backend.c:535-566 | one backend read |
| Converged.ConvergedBackend.Read | kuangshi16pro-lcc/src/backends/converged/backend.c:520-578 | the read in place: routing, fallback, overlay and stamping |
| PowerPairs.PairOverwrites | kuangshi16pro-lcc/src/backends/converged/backend.c:665-755 | any two stores behind these routes act as one: a successful write, split, direct or fallback, overwrites the overlay of the two by exactly the present fields |
| PowerPairs.ReadThrough | kuangshi16pro-lcc/src/backends/converged/backend.c:520-578 | what a converged read shows of two stores |
| PowerPairs.ReplaceFlag | kuangshi16pro-lcc/src/backends/converged/backend.c:249-250 | the overlay replaces exactly when the standard side takes no power writes |
| PowerStore.StandardKeepsPromise | kuangshi16pro-lcc/src/backends/standard/backend.c:189-198 | the standard half is such an underlying store under any driver |
| PowerStore.Amw0KeepsPromise | kuangshi16pro-lcc/src/backends/amw0/backend.c:725-797 | the AMW0 half is such an overlying store under any hardware |
| PowerStore.WriteOverwritesView | kuangshi16pro-lcc/src/backends/converged/backend.c:665-755 | on the real pair a successful write overwrites the combined view by exactly the present fields |
| PowerStore.RequestedIsNoNews | kuangshi16pro-lcc/src/backends/converged/backend.c:665-755 | a requested limit that AMW0 shows was written by AMW0, so no later read finds another byte there |
| PowerStore.SecondRead | kuangshi16pro-lcc/src/backends/converged/backend.c:520-578 | after a write a read shows what the pair holds if and only if AMW0 answers without a newly seen byte in a field that was not requested, or does not answer and has nothing to add |
| PowerStore.StandardAfter | kuangshi16pro-lcc/src/backends/converged/backend.c:665-755 | after a write the standard half shows the requested PL1 and PL2 if it takes power writes, and nothing else new |
| PowerStore.OneStore | kuangshi16pro-lcc/src/backends/converged/backend.c:520-578 | read, write, read, with AMW0 answering either read or not: the second read is the first overwritten by exactly the present fields, if and only if (both answered) it sees no new byte in a field that was not requested, (only the first) AMW0 has nothing to add, (only the second) the first missed nothing that was not requested, (neither) the standard half serves the whole request |
| PowerStore.AfterBlindRead | kuangshi16pro-lcc/src/backends/converged/backend.c:565-572 | the third of these cases, field by field and with news allowed |
| PowerStore.TwiceBlind | kuangshi16pro-lcc/src/backends/converged/backend.c:565-572 | the fourth: with AMW0 silent in both reads, they agree exactly when every requested field goes to the standard half or is shown by it already |
| PowerStore.UnansweredReadDropsPl4 | kuangshi16pro-lcc/src/backends/converged/backend.c:565-572 | a failing family: a successful read without AMW0 drops a PL4 that AMW0 holds |
| PowerStore.NewlyReadPl4Appears | kuangshi16pro-lcc/src/backends/amw0/backend.c:458-464 | another: a PL4 that could not be read at first is shown by the second read although nobody asked for it |
| Transactions.NameIsSafe | kuangshi16pro-lcc/src/daemon/transaction.c:17-32 | the loop accepts exactly non-empty names of letters, digits, dash, underscore and dot |
| Transactions.ExecuteContract | kuangshi16pro-lcc/src/daemon/transaction.c:589-716 | for any backend and any answers: never pending afterwards; idle exactly on OK; a failure recorded as the returned status in both records, surviving the refresh; the pending target kept exactly if staging succeeded; a request stopped before the backend changes nothing else |
| Transactions.RefusedRecords | kuangshi16pro-lcc/src/daemon/transaction.c:654-683 | the records of a refused request |
| Transactions.AcceptedRecords | kuangshi16pro-lcc/src/daemon/transaction.c:685-716 | the records of an accepted request, refreshed or not |
| Transactions.StoppedRecords | kuangshi16pro-lcc/src/daemon/transaction.c:608-652 | the records of a request stopped before the backend |
| Transactions.RefreshFailure | kuangshi16pro-lcc/src/core/state/reader.c:21-82 | after a failed refresh values are the old ones and every mark is cache, unless the backend answered without a usable name, when the snapshot is kept as it was |
| Transactions.EveryRunRecorded | kuangshi16pro-lcc/src/daemon/transaction.c:589-716 | the same after every call of every run, over backends that may change from call to call |
| Managers.Manager.Begin | kuangshi16pro-lcc/src/daemon/transaction.c:496-512 | a pending transaction with cleared records |
| Managers.Manager.MarkPublicStage | kuangshi16pro-lcc/src/daemon/transaction.c:305-309 | the stage in both records |
| Managers.Manager.UpdateStage | kuangshi16pro-lcc/src/daemon/transaction.c:291-303 | the stage of the transaction |
| Managers.Manager.SetPendingTarget | kuangshi16pro-lcc/src/daemon/transaction.c:311-326 | the target in both records |
| Managers.Manager.Fail | kuangshi16pro-lcc/src/daemon/transaction.c:408-427 | the failure in both records |
| Managers.Manager.ApplyOperation | kuangshi16pro-lcc/src/daemon/transaction.c:534-570 | a profile the backend does not support is tried again as the mode it names |
| Managers.Manager.RecordAttempt | kuangshi16pro-lcc/src/daemon/transaction.c:656-665 | what the attempt left in the records |
| Managers.Manager.GateRequest | kuangshi16pro-lcc/src/daemon/transaction.c:642-652 | from a staged target on |
| Managers.Manager.RunBackend | kuangshi16pro-lcc/src/daemon/transaction.c:654-716 | from the backend call on |
| Managers.Manager.FinishRefused | kuangshi16pro-lcc/src/daemon/transaction.c:666-683 | record, then refresh whatever it says |
| Managers.Manager.FinishAccepted | kuangshi16pro-lcc/src/daemon/transaction.c:685-716 | the refresh decides |
| Managers.Manager.ExecuteRequest | kuangshi16pro-lcc/src/daemon/transaction.c:589-716 | the step-by-step executor leaves exactly the specified daemon and status |
| Managers.Manager.RefreshState | kuangshi16pro-lcc/src/core/state/reader.c:21-82 | saving, overwriting and restoring the snapshot in place is the specified refresh |
| Mocks.MockBackend.constructor | kuangshi16pro-lcc/src/backends/mock/mock-backend.c:292-356 | the seeded mock |
| Mocks.MockBackend.FailNext | kuangshi16pro-lcc/src/backends/mock/mock-backend.c:369-402 | arms one slot |
| Mocks.MockBackend.Consume | kuangshi16pro-lcc/src/backends/mock/mock-backend.c:33-43 | an armed failure fires once |
| Mocks.MockBackend.ApplyProfile | kuangshi16pro-lcc/src/backends/mock/mock-backend.c:95-132 | in place as specified, including the cut name of a too long one |
| Mocks.MockBackend.ApplyMode | kuangshi16pro-lcc/src/backends/mock/mock-backend.c:134-157 | the mode slot, then the profile operation |
| Mocks.MockBackend.ApplyPowerLimits | kuangshi16pro-lcc/src/backends/mock/mock-backend.c:159-203 | the failure slot before the any-field test, then the merge |
| Mocks.MockBackend.StorePower | kuangshi16pro-lcc/src/backends/mock/mock-backend.c:183-197 | the merge into both targets |
| Mocks.MockBackend.ApplyFanTable | kuangshi16pro-lcc/src/backends/mock/mock-backend.c:205-242 | in place as specified |
| Mocks.MockBackend.ApplyFanBoost | kuangshi16pro-lcc/src/backends/mock/mock-backend.c:244-278 | in place as specified |
| MockRuns.SeedInStep | kuangshi16pro-lcc/src/backends/mock/mock-backend.c:292-356 | the seeded mock is sound and its two targets are one |
| MockRuns.RefreshAligns | kuangshi16pro-lcc/src/core/state/reader.c:21-82 | a refresh from any cache aligns daemon and mock |
| MockRuns.BackendCallApplied | kuangshi16pro-lcc/src/daemon/transaction.c:534-570 | one executor call does to the mock what the abstract store expects, armed failures included |
| MockRuns.RequestRefines | kuangshi16pro-lcc/src/daemon/transaction.c:589-716 | one request is one step of a store of a single target: status, target and armed failures agree; success moves all four targets to the composed one, which the record names; failure moves none |
| MockRuns.EveryRunRefines | kuangshi16pro-lcc/src/backends/mock/mock-backend.c:95-278 | every run with failures injected anywhere is a run of that store, and cached requested = cached effective = mock requested = mock effective throughout |
| DaemonSoundness.RefreshSound | kuangshi16pro-lcc/src/core/state/reader.c:21-82 | over any backend whose reads are sound and true, so is the refreshed cache |
| DaemonSoundness.ExecuteSound | kuangshi16pro-lcc/src/daemon/transaction.c:589-716 | every call keeps the cache sound; after one that reached the backend its live marks are true, or there are none |
| DaemonSoundness.AlwaysSound | kuangshi16pro-lcc/src/daemon/transaction.c:589-716 | the same over whole lives in which the hardware also changes by itself between calls |
| DaemonSoundness.FirstRefreshSound | kuangshi16pro-lcc/src/daemon/manager.c:75-99 | the first refresh from a cleared cache already publishes sound state |
| PairSoundness.PairReadGood | kuangshi16pro-lcc/src/backends/converged/backend.c:520-578 | two backends with sound and true reads make a routed, falling-back, overlaid read that is sound and true |
| PairSoundness.PairCallInOrder | kuangshi16pro-lcc/src/backends/converged/backend.c:580-846 | and every routed or split write keeps both in order |
| PairSoundness.PairIsGood | kuangshi16pro-lcc/src/backends/converged/backend.c:848-870 | so the pair is such a backend itself |
| ConvergedSoundness.StandardIsGood | kuangshi16pro-lcc/src/backends/standard/backend.c:221-231 | the standard backend is such a backend while platform_profile is not empty |
| ConvergedSoundness.Amw0IsGood | kuangshi16pro-lcc/src/backends/amw0/backend.c:895-905 | the AMW0 backend is such a backend under any hardware |
| ConvergedSoundness.OverlayIsTrue | kuangshi16pro-lcc/src/backends/converged/backend.c:246-344 | an overlay of true snapshots is true of both halves, temperatures and fan speeds included |
| ConvergedSoundness.EveryPublishedStateIsSound | kuangshi16pro-lcc/src/daemon/transaction.c:572-716 | over whole lives of the real daemon every published value has a source exactly when present, summaries are up to date, and live marks are the file's, zone's, sensor's or EC byte's own values |
| ConvergedSoundness.TrueAgainAfterACall | kuangshi16pro-lcc/src/daemon/transaction.c:589-716 | after the hardware changed by itself the next call that reaches it makes the live marks true again |
| ConvergedSoundness.SeededShadowOk | kuangshi16pro-lcc/src/backends/amw0/backend.c:178-206 | the seeded shadow satisfies the invariant the AMW0 theorems start from |
| Keys.KeysDiffer | kuangshi16pro-lcc/src/core/state/model.c:394-419 | the 48 member names are pairwise different |
| Keys.KeyIsWord | kuangshi16pro-lcc/src/core/state/model.c:394-419 | every member name is lower-case letters, digits and underscores |
| JsonText.PrintsOneObject | kuangshi16pro-lcc/src/core/state/model.c:394-419 | a printed object is closed by its last brace and no earlier one |
| JsonText.Search | kuangshi16pro-lcc/src/cli/cmd-state.c:21-24 | the first occurrence of a quoted name in printed text is the first member of that name, whatever strings and braces lie around |
| JsonText.QuotedClear | kuangshi16pro-lcc/src/cli/cmd-state.c:21-24 | another quoted string matches neither at its opening nor at its closing quote |
| StateTexts.TargetWidth | kuangshi16pro-lcc/src/core/state/model.c:63-85 | target text is at most 234 and power text at most 52 characters |
| StateTexts.ExecutionWidth | kuangshi16pro-lcc/src/core/state/model.c:103-145 | execution text is at most 304 characters |
| StateTexts.ComponentWidth | kuangshi16pro-lcc/src/core/state/model.c:147-165 | component text is at most 90 characters |
| StateTexts.PowerAttributionWidth | kuangshi16pro-lcc/src/core/state/model.c:167-209 | power attribution is at most 496 characters |
| StateTexts.MetaWidth | kuangshi16pro-lcc/src/core/state/model.c:211-258 | effective_meta is at most 1018 characters |
| StateTexts.StateWidth | kuangshi16pro-lcc/src/core/state/model.c:273-444 | the whole object is at most 3526 characters for every snapshot within its field capacities |
| StateTexts.WidthIsLength | kuangshi16pro-lcc/src/core/state/model.c:394-438 | the computed width is the printed length |
| Numbers.DecimalFits | kuangshi16pro-lcc/src/core/state/model.c:6-22 | a number below a power of ten prints in as many digits at most |
| Renderer.AppendNumberOrNull | kuangshi16pro-lcc/src/core/state/model.c:6-22 | the buffer holds the number or null, cut only below six characters of room |
| Renderer.AppendBoolOrNull | kuangshi16pro-lcc/src/core/state/model.c:24-31 | the buffer holds the truth value or null |
| Renderer.AppendStringOrNull | kuangshi16pro-lcc/src/core/state/model.c:87-101 | the buffer holds the cut text, and -1 is returned exactly when it was cut |
| Renderer.AppendPower | kuangshi16pro-lcc/src/core/state/model.c:33-61 | the buffer holds the power object, whole above 52 characters of room |
| Renderer.AppendTarget | kuangshi16pro-lcc/src/core/state/model.c:63-85 | the buffer holds the target object, whole above 234 |
| Renderer.AppendExecution | kuangshi16pro-lcc/src/core/state/model.c:103-145 | the buffer holds the execution object, whole above 304 |
| Renderer.AppendComponent | kuangshi16pro-lcc/src/core/state/model.c:147-165 | the buffer holds the component object, whole above 90 |
| Renderer.AppendPowerAttribution | kuangshi16pro-lcc/src/core/state/model.c:167-209 | the buffer holds the power attribution, whole above 496 |
| Renderer.AppendEffectiveMeta | kuangshi16pro-lcc/src/core/state/model.c:211-258 | the buffer holds the attribution, whole above 1018 |
| Renderer.RenderTargets | kuangshi16pro-lcc/src/core/state/model.c:304-336 | the first buffers print what their parts of the state tree print |
| Renderer.RenderApply | kuangshi16pro-lcc/src/core/state/model.c:337-376 | so do the last-apply buffers |
| Renderer.RenderTransaction | kuangshi16pro-lcc/src/core/state/model.c:346-363 | so do the transaction buffers |
| Renderer.RenderThermal | kuangshi16pro-lcc/src/core/state/model.c:377-392 | so do the thermal buffers |
| Renderer.RenderJson | kuangshi16pro-lcc/src/core/state/model.c:273-444 | the output is the printed state tree cut only by the caller's buffer; BUFFER_TOO_SMALL exactly when it was cut, and no inner buffer ever truncates |
| Renderer.StateSame | kuangshi16pro-lcc/src/core/state/model.c:394-438 | rendering pieces beforehand prints the same whole |
| Renderer.GetStateJson | kuangshi16pro-lcc/src/daemon/manager.c:109-118 | rendering into the daemon's 4096 characters never fails |
| Scanner.CloseBraces | kuangshi16pro-lcc/src/cli/cmd-state.c:40-54 | the depth counter finds the brace that closes the first, or none |
| Scanner.FindValueEnd | kuangshi16pro-lcc/src/cli/cmd-state.c:34-60 | the three ways a value ends |
| Scanner.ExtractJsonValue | kuangshi16pro-lcc/src/cli/cmd-state.c:9-69 | the moving cursors compute the specified extraction, with every error case |
| Scanner.ValueDelimited | kuangshi16pro-lcc/src/cli/cmd-state.c:34-60 | a printed value followed by a comma or brace is delimited exactly |
| Scanner.ExtractInvertsPrint | kuangshi16pro-lcc/src/cli/cmd-state.c:9-69 | for any printed object of plain strings the scanner returns exactly the text of the first member of the name if it fits, BUFFER_TOO_SMALL if not, NOT_FOUND if there is none |
| Scanner.TrimQuotes | kuangshi16pro-lcc/src/cli/cmd-state.c:71-82 | moving the text inside its buffer takes off one pair of quotes |
| Scanner.TrimInvertsQuote | kuangshi16pro-lcc/src/cli/cmd-state.c:71-82 | an extracted string loses exactly its quotes |
| StateScan.FirstIsRendered | kuangshi16pro-lcc/src/core/state/model.c:394-419 | every top-level name except "thermal" first occurs as itself, for every clean state |
| StateScan.ScanInvertsRender | kuangshi16pro-lcc/src/cli/cmd-state.c:9-69 | rendering and scanning are inverse: the output is one object, and each top-level name except "thermal" scans back to exactly what was rendered for it |
| StateScan.ThermalScanFindsAttribution | kuangshi16pro-lcc/src/cli/cmd-state.c:9-69 | scanning for "thermal" yields the thermal attribution and never the thermal values |
| Numbers.Trim | kuangshi16pro-lcc/src/core/profile/loader.c:15-37 | moving both ends inward is stripping blanks |
| Numbers.StripDressed | kuangshi16pro-lcc/src/core/profile/loader.c:15-37 | trimming takes off exactly the surrounding blanks |
| Numbers.ParsesDecimal | kuangshi16pro-lcc/src/core/profile/loader.c:39-57 | a printed byte parses back, although base 0 reads a leading zero as octal |
| Numbers.ReadsDecimal | kuangshi16pro-lcc/src/core/profile/loader.c:240-246 | a printed number reads back from the front of any text |
| Loader.SplitTriplet | kuangshi16pro-lcc/src/core/profile/loader.c:357-412 | the in-place splitting loop accepts exactly three parts and computes the specified point or error |
| Loader.PointIndex | kuangshi16pro-lcc/src/core/profile/loader.c:414-441 | an accepted index is below sixteen |
| Loader.PieceLength | kuangshi16pro-lcc/src/core/profile/loader.c:550-550 | each fgets takes at least one character and no more than there are |
| Loader.LoadDocument | kuangshi16pro-lcc/src/core/profile/loader.c:533-620 | the line loop with its section variable leaves exactly the specified status and document, half filled on a bad line and untouched when the file cannot be opened |
| Loader.ValidateDocument | kuangshi16pro-lcc/src/core/profile/validator.c:3-19 | a fan table is validated alone; a document without any part is INVALID_ARGUMENT |
| LoaderTheorems.TripletReads | kuangshi16pro-lcc/src/core/profile/loader.c:357-412 | a printed point parses back with any blanks around its commas |
| LoaderTheorems.LineMeans | kuangshi16pro-lcc/src/core/profile/loader.c:550-610 | a printed line, with blanks anywhere, does what its item says in every section |
| LoaderTheorems.LinesMean | kuangshi16pro-lcc/src/core/profile/loader.c:550-610 | reading printed lines does what their items do, one after the other |
| LoaderTheorems.CanonicalMeans | kuangshi16pro-lcc/src/core/profile/loader.c:444-531 | the canonical items of a document rebuild it |
| LoaderTheorems.LoadInvertsPrint | kuangshi16pro-lcc/src/core/profile/loader.c:533-620 | loading inverts printing: the canonical text of every printable document, with blanks and comment lines anywhere and lines within one fgets, loads back to it |
| LoaderImage.LoadedIsPrintable | kuangshi16pro-lcc/src/core/profile/loader.c:533-620 | every accepted document is printable exactly when its table name is bare, which it is whenever the file gives it |
| LoaderImage.ImageOfLoading | kuangshi16pro-lcc/src/core/profile/loader.c:533-620 | a document can be loaded from a file that names its own table if and only if it is printable and that name has no line break, so the printable documents are exactly the image of the loader |
| FanJson.NextMark | kuangshi16pro-lcc/src/core/profile/loader.c:275-280 | the cursor stops at the next brace or bracket |
| FanJson.Points | kuangshi16pro-lcc/src/core/profile/loader.c:269-306 | an array never yields more than sixteen points |
| FanJson.ReadPoints | kuangshi16pro-lcc/src/core/profile/loader.c:269-306 | the loop over objects succeeds or fails as specified and leaves the points it read at the front of the array |
| FanJson.PadPoints | kuangshi16pro-lcc/src/core/profile/loader.c:311-314 | the rest of the array repeats the last point |
| FanJson.ReadCurve | kuangshi16pro-lcc/src/core/profile/loader.c:249-317 | the whole array parse in place, with what a failed one leaves behind |
| FanJson.ReadHeader | kuangshi16pro-lcc/src/core/profile/loader.c:332-343 | name and flags of a JSON table |
| FanJson.LoadTableJson | kuangshi16pro-lcc/src/core/profile/loader.c:319-355 | the whole JSON table load: its status, the loaded table, and the table a failed load leaves behind |
| FanJsonTheorems.PointReads | kuangshi16pro-lcc/src/core/profile/loader.c:221-247 | a printed point reads back field by field |
| FanJsonTheorems.CurveLoads | kuangshi16pro-lcc/src/core/profile/loader.c:249-317 | a printed curve of one to sixteen points, with any gaps, loads as those points continued with the last; an empty one is PARSE, a longer one RANGE |
| FanJsonTheorems.PaddingKeepsValidity | kuangshi16pro-lcc/src/core/profile/loader.c:311-314 | continuing with the last point changes nothing about validity |
| FanJsonTables.HeaderReads | kuangshi16pro-lcc/src/core/profile/loader.c:332-343 | name and both flags of a written table read back, except that a table named like either spelling of the second flag gets the first flag's value for it |
| FanJsonTables.SheetLoads | kuangshi16pro-lcc/src/core/profile/loader.c:319-355 | a whole JSON table of any plain name, with blanks before members, after colons and between points, loads as it is written if and only if it is too long or its CPU curve is refused, or its name is harmless: not gpu over two different curves, and not a spelling of the second flag over two different flags when the GPU curve loads |
| FanJsonTables.WrittenIsAccepted | kuangshi16pro-lcc/src/core/profile/loader.c:319-355 | loading as written accepts exactly the tables that fit the buffer, have a name and one to sixteen points in each curve, legal and globally monotone; each curve is continued with its last point |
| FanJsonTables.NamedLikeItsCurve | kuangshi16pro-lcc/src/core/profile/loader.c:249-268 | a concrete failing case: a valid table named gpu loads without complaint with its CPU curve for both |
| FanJsonTables.NamedLikeItsFlag | kuangshi16pro-lcc/src/core/profile/loader.c:194-219 | another: a valid table named FanControlRespective loads with the first flag's value for that flag |

## Left out

- sd-bus, polkit, the D-Bus client, logging, trace files, argument parsing and capability-file detection: plumbing over libraries.
- Null pointers for contexts, results and buffers: every object is present; a null request string or limit set is the None of an option.
- Operation tables with missing entries (the unsupported_operation wrapper): every table has every operation.
- Path building and its truncation: a file is named by its role, not by a path.
- Whether WKBC packets drive the EC: "one packet stores one byte" is an assumption about the environment.
- Finding the ECRR path before a read: whether an EC byte can be read is one predicate of the call's environment.
- The text of the fallback reason that build_selection_metadata composes; the route table it publishes is modelled.
- AMW0 result fields of a failed read that the code leaves uninitialised: the model passes the caller's value through.
- Custom-mode actions beyond the interpreter's own branch: no plan builder emits them.
- Amw0Class.Amw0Backend.WriteSteps: one shared loop stands for the write blocks that the mode, boost and power operations spell out one by one.
- PowerStore.OneStore: zones with only one usable constraint are not covered, because a combined request then falls back whole and leaves a stale PL2 visible.
- LoaderImage.ImageOfLoading: documents whose table name was made up from the path are characterised by LoadedIsPrintable only.
- MockRuns.EveryRunRefines: stated for the mock only, because the other backends rename profiles to canonical names.
- The print_observe wrappers of the CLI, lcc_state_render_thermal_json, lcc_apply_plan_print and the named-table search over directories: easy members over what is proved here.
- Directory probes and can-write probes of the standard backend: they decide capabilities, which are inputs here.
