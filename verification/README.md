# PowerTunerDaemon, modelled and verified

PowerTunerDaemon applies power settings that a remote client asks for: it writes CPU registers,
drives fan controllers through an embedded controller, edits the operating system's power schemes,
keeps settings in profile files, and re-applies the last good packet on a timer. This project models
the parts with state, loops and arithmetic, and proves what they promise.

`dafny verify dfyconfig.toml` checks everything.

| file | part of the daemon |
|---|---|
| `Basics.dfy` | the option type and two small lemmas that several parts use |
| `Words.dfy`, `Bitfields.dfy` | 64-bit words, `getBitfield`/`setBitfield`, and lists of field writes |
| `HwpWindow.dfy`, `Rapl.dfy` | the HWP activity window and the RAPL milliwatt conversions |
| `Registers.dfy`, `PowerLimit.dfy`, `CppcRequest.dfy` | register classes: read, modify, write, read back, compare |
| `MsrLinux.dfy`, `CpuPasses.dfy` | reference-counted MSR descriptors and the fill and apply passes that use them |
| `EcRam.dfy`, `FanDevice.dfy`, `Device.dfy` | EC RAM behind two ports, fan boards, curves, and the fan-curve timer |
| `PowerSystem.dfy` | the Windows power API: a store of power schemes and a trace of every call |
| `SchemeUpdate.dfy`, `PowerSchemes.dfy` | `OSWindows::setPowerSchemes`: one scheme of the request, and all of them |
| `DaemonService.dfy` | the service's handlers, apply timer, stored packet and active profile |
| `DataStream.dfy`, `ProfileData.dfy`, `ProfileDiskManager.dfy` | the byte format of profile files, loading and merging |
| `Encodings.dfy` | the encodings assumed for unseen types exist |
| `StreamWorker.dfy` | messages taken off a socket that delivers arbitrary pieces |
| `SmuCache.dfy` | RyzenAdj's cache for settings the hardware cannot read back |

## How outside parts appear

- Hardware, drivers and operating system calls may fail or misbehave freely. A constant (`stores`,
  `reliable`) marks a device that never does; contracts then say what success must look like, so that
  giving up is no way to meet them.
- The MSR device records every open, access and close in order; the passes' contracts are about that record.
- The power API writes every call and its outcome into a trace of its own; a number-indexed oracle decides
  which calls fail, and the store is what the trace makes of the initial one.
- The world around the service (profile files, hardware answers, import data) is a parameter of every
  event, and so is a settings file on disk. A settings load that fails is taken to change nothing.
- Types of libPowerTuner are not part of this model. Their encodings are assumed invertible and
  self-delimiting (`DataStream.Lawful`, `ProfileData.LawfulCodecs`, `StreamWorker.Lawful`); `Encodings.dfy`
  shows that such encodings exist. Integers, byte arrays, strings, counts and lists are encoded byte by
  byte. SHA-256 is an arbitrary function.
- The RAPL conversions use `double` in the source. Every unit is a power of two, so on the non-negative
  values of a C `int` they equal the exact floors used here.
- Words are sequences of 64 bits; a C `int` is a range type, and conversions to `uint64_t` sign-extend.

## What turned out false, and when it holds

- A few setters and loops do not do what their names promise. Each has its exact condition below:
  the 32-bit `setBitfield` (`SetBitfield32Frame`), the activity window from 1280 seconds on
  (`EncodingGood`, `LimitIsLost`), `MSR_CPPC_REQUEST::set` (`CppcSet`, `TargetWitness`), negative
  package power limits, which are accepted and read back as zero just below zero
  (`NegativeAcceptedIff`, `NegativeWitness`), `closeFd` on an unknown cpu
  (`CloseConsistentIffKnown`, and what it leads to in `UnknownCloseThenOpen`), the Intel core loop,
  which opens one cpu and closes another (`CorePassAlwaysBalancedIff`, `LeakingWitness`; over many
  passes `BoundedIff` and `MisplacedGrows`), a power scheme whose creation fails at its name and
  stays behind (`NothingLeftIff`, `LeftoverWitness`), a fan speed command that succeeds without
  writing when the mode cannot be read (`SetGPDFanSpeed`), point order in a fan curve with equal
  thresholds (`OrderIndependentIffConsistent`), empty messages on the socket (`AnySplitWorksIff`),
  the unsigned cache setter (`SetUnsigned`), four RyzenAdj power limits that are offered but not
  cached, so that a value asked for is not shown when it cannot be read (`CachedIff`,
  `UnreadLimitIsLost`), and a refused profile that has already replaced parts of the packet
  (`LoadForDisplay`, `RefusalChangesSomePacket`).
- `IntelCPU.cpp` uses another validity wrapper than the register headers; the headers' optional values
  are followed.

## Model

| member | source | states |
|---|---|---|
| `Bitfields.GetBitfieldBits` | src/Utils/Utils.cpp:44-58 | reading a field yields exactly its bits, shifted down, for every field including the whole word |
| `Bitfields.SetBitfieldIsOverwrite` | src/Utils/Utils.cpp:65-77 | writing a field replaces its bits by the value's low bits and keeps all others |
| `Bitfields.SetBitfield32Frame` | src/Utils/Utils.cpp:65-81 | the 32-bit form keeps the bits outside the field exactly for fields that end at bit 31 |
| `Bitfields.FieldReadsBack` | src/Utils/Utils.cpp:44-77 | after any list of disjoint field writes, each field reads back its value modulo its width |
| `Bitfields.FieldFrame` | src/Utils/Utils.cpp:65-77 | a field disjoint from every written one keeps its contents |
| `Bitfields.WriteOrderIrrelevant` | src/Utils/Utils.cpp:65-77 | disjoint writes in any order give the same word |
| `Bitfields.ApplyAllIdempotent` | src/Utils/Utils.cpp:65-77 | applying the same writes twice is applying them once |
| `Bitfields.MatchesIffFits` | src/Device/CPU/Intel/Registers/MSR_TURBO_RATIO_LIMIT.h:55-73 | on a register that stores, comparing every field with the requested word succeeds iff every value fits its field |
| `Registers.ListCodec` | src/Device/CPU/Intel/Registers/MSR_TURBO_RATIO_LIMIT.h:36-73 | the comparison of all fields succeeds only if the getter decodes the requested values, and a stored list is accepted iff the values are in range |
| `Registers.StoredRegister` | src/Device/CPU/Intel/Registers/MSR_POWER_CTL/MSR_POWER_CTL_CU1.h:59-74 | a stored list of fields decodes to what was written and leaves the gaps between the fields alone |
| `Registers.SecondSetIsNoOp` | src/Device/CPU/Intel/Registers/IA32_HWP_REQUEST.h:62-88 | a second identical verified write changes nothing and gives the same answer |
| `Registers.Finish` | src/Device/CPU/Intel/Registers/IA32_HWP_REQUEST.h:75-88 | write, read back, compare: true means the register decodes to the request, whatever the hardware does with the written bits |
| `Registers.TurboGet` | src/Device/CPU/Intel/Registers/MSR_TURBO_RATIO_LIMIT.h:30-46 | nothing when the read fails, otherwise the eight bytes of the register |
| `Registers.TurboSet` | src/Device/CPU/Intel/Registers/MSR_TURBO_RATIO_LIMIT.h:49-74 | true means the register decodes to the request; a storing register accepts exactly ratios that are bytes |
| `Registers.PowerCtlGet` | src/Device/CPU/Intel/Registers/MSR_POWER_CTL/MSR_POWER_CTL_CU1.h:26-50 | nothing when the read fails, otherwise the sixteen flags |
| `Registers.PowerCtlSet` | src/Device/CPU/Intel/Registers/MSR_POWER_CTL/MSR_POWER_CTL_CU1.h:53-94 | true means the sixteen flags read back; a storing register always accepts |
| `Registers.CstGet` | src/Device/CPU/Intel/Registers/MSR_PKG_CST_CONFIG_CONTROL/MSR_PKG_CST_CONFIG_CONTROL_CU1.h:26-45 | nothing when the read fails, otherwise the decoded register |
| `Registers.CstSet` | src/Device/CPU/Intel/Registers/MSR_PKG_CST_CONFIG_CONTROL/MSR_PKG_CST_CONFIG_CONTROL_CU1.h:48-79 | true means all eleven fields read back; a storing register accepts exactly 4-bit limits |
| `Registers.HwpGet` | src/Device/CPU/Intel/Registers/IA32_HWP_REQUEST.h:31-52 | nothing when the read fails, otherwise the decoded register with the window in microseconds |
| `Registers.HwpSet` | src/Device/CPU/Intel/Registers/IA32_HWP_REQUEST.h:55-89 | true means every field reads back, the window as its encoding decodes: not above the request and less than a thirteenth below, exactly for requests below the limit |
| `CppcRequest.CppcSet` | src/Device/CPU/AMD/Registers/MSR_CPPC_REQUEST.h:45-62 | on a storing register true comes exactly for byte limits and targets that are no multiples of 256, and means equality exactly when the targets are bytes too |
| `CppcRequest.TargetWitness` | src/Device/CPU/AMD/Registers/MSR_CPPC_REQUEST.h:45-62 | a desired target of 257 is accepted and reads back as 1 |
| `HwpWindow.USecToRawHWPActivityWindow` | src/Device/CPU/Intel/IntelUtils.cpp:34-48 | the loop ends and yields the repeated floor division by ten and its step count, each cut to its field |
| `HwpWindow.EncodingGood` | src/Device/CPU/Intel/IntelUtils.cpp:34-48 | the pair always fits 3 and 7 bits; it decodes to at most the request and more than twelve thirteenths of it exactly for 0 <= us < 1,280,000,000 |
| `HwpWindow.LimitIsLost` | src/Device/CPU/Intel/IntelUtils.cpp:34-48 | a window of 1,280,000,000 microseconds is stored as 12 |
| `HwpWindow.RegisterWindowRoundTrip` | src/Device/CPU/Intel/Registers/IA32_HWP_REQUEST.h:43-56 | every window a register can hold re-encodes to the same duration; to the same pair iff the exponent is zero or the mantissa at least 13 |
| `HwpWindow.NotMonotone` | src/Device/CPU/Intel/IntelUtils.cpp:39-45 | 128 microseconds decode to less than 127 do |
| `Rapl.CycleNeverRaises` | src/Device/CPU/Intel/Registers/MSR_PKG_POWER_LIMIT.h:37-59 | writing back what was read never raises the raw limit |
| `Rapl.ConversionsAreSource` | src/Device/CPU/Intel/Registers/MSR_PKG_POWER_LIMIT.h:37-59 | both conversions are the source's expressions over real numbers, truncated |
| `Rapl.FixedPoints` | src/Device/CPU/Intel/Registers/MSR_PKG_POWER_LIMIT.h:37-59 | a raw limit survives read and write-back iff 2^p divides 1000 times it |
| `Rapl.GridIsFixed` | src/Device/CPU/Intel/Registers/MSR_PKG_POWER_LIMIT.h:37-59 | the fixed points are exactly the multiples of 2^(p-3), or all counts for p up to 3 |
| `Rapl.SetGetLoss` | src/Device/CPU/Intel/Registers/MSR_PKG_POWER_LIMIT.h:37-59 | set then get never gains and loses less than 1000/2^p + 1 mW, nothing iff 1000 divides mw times 2^p |
| `Rapl.CyclesReachLargestFixedPoint` | src/Device/CPU/Intel/Registers/MSR_PKG_POWER_LIMIT.h:37-62 | repeated get and set reach the largest fixed point not above the start and stay there |
| `Rapl.CycleMonotone` | src/Device/CPU/Intel/Registers/MSR_PKG_POWER_LIMIT.h:37-59 | a cycle keeps the order of raw limits |
| `Rapl.CycleLosesManyCounts` | src/Device/CPU/Intel/Registers/MSR_PKG_POWER_LIMIT.h:37-59 | one cycle at the finest unit can lose 32 counts |
| `PowerLimit.UnitsOf` | src/Device/CPU/Intel/Registers/MSR_RAPL_POWER_UNIT.h:34-44 | both unit exponents read from the register, for power and for time, are 0 to 15 |
| `PowerLimit.UnitsBits` | src/Device/CPU/Intel/Registers/MSR_RAPL_POWER_UNIT.h:34-44 | the exponents are the values of bits 0 to 3 and 16 to 19 |
| `PowerLimit.WindowIsSource` | src/Device/CPU/Intel/Registers/MSR_PKG_POWER_LIMIT.h:39-40 | a time window in milliseconds is the source's expression over real numbers, truncated |
| `PowerLimit.PkgGet` | src/Device/CPU/Intel/Registers/MSR_PKG_POWER_LIMIT.h:30-47 | nothing when the read fails, otherwise both limits in milliwatts, both time windows in milliseconds and the five flags |
| `PowerLimit.PkgSet` | src/Device/CPU/Intel/Registers/MSR_PKG_POWER_LIMIT.h:50-92 | true means a get returns the requested flags and each limit as its raw count decodes: a limit that is not negative comes back no higher and less than 1000/2^p + 1 mW lower, a negative one as 0; a storing register ends as the fold of the writes, accepts exactly limits whose raw counts are 15-bit numbers, and holds each time window that was found, the old one otherwise; a window that was found and fits reads back in milliseconds |
| `PowerLimit.NegativeAcceptedIff` | src/Device/CPU/Intel/Registers/MSR_PKG_POWER_LIMIT.h:58-91 | a negative limit gets a raw count the comparison accepts iff it is above minus one raw count |
| `PowerLimit.NegativeWitness` | src/Device/CPU/Intel/Registers/MSR_PKG_POWER_LIMIT.h:37-91 | -1 mW in eighths of a watt is accepted and reads back as 0, above the request |
| `PowerLimit.WindowsStored` | src/Device/CPU/Intel/Registers/MSR_PKG_POWER_LIMIT.h:56-81 | the time fields of both limits hold the windows that were found and stay as they were where none was found |
| `PowerLimit.WriteBackIsCycle` | src/Device/CPU/Intel/Registers/MSR_PKG_POWER_LIMIT.h:37-81 | both limits written back as they were read are in range, and each field then holds one conversion cycle of its old count |
| `PowerLimit.CheckedFieldsReadBack` | src/Device/CPU/Intel/Registers/MSR_PKG_POWER_LIMIT.h:61-91 | the compared fields pass iff they are in range, also with the unchecked time fields written after them |
| `MsrLinux.MSRLinux.AddSlotForCPU` | src/Device/CPU/Utils/MSR/OS/Linux/MSRLinux.cpp:26-31 | a known slot stays, an unknown one starts closed |
| `MsrLinux.MSRLinux.OpenFd` | src/Device/CPU/Utils/MSR/OS/Linux/MSRLinux.cpp:58-81 | with the module loaded the slot table takes the step of `OpenStep` for the kernel's answer and success is its success; success adds one hold, failure changes none; in a consistent table the kernel is asked exactly for a cpu not held, and a held cpu always opens |
| `MsrLinux.MSRLinux.CloseFd` | src/Device/CPU/Utils/MSR/OS/Linux/MSRLinux.cpp:83-98 | for any cpu the table takes the step of `CloseStep` and one hold goes if there was one; the kernel descriptor closes with the last hold; a consistent table stays consistent iff the cpu has a slot, and then no descriptor is closed twice |
| `MsrLinux.MSRLinux.Access` | src/Device/CPU/Utils/MSR/OS/Linux/MSRLinux.cpp:100-118 | reads and writes are refused at count zero; in a consistent table they use an open descriptor; like opens and closes they are recorded in the order they happen |
| `MsrLinux.MSRLinux.Conservation` | src/Device/CPU/Utils/MSR/OS/Linux/MSRLinux.cpp:58-98 | kernel opens minus closes is the number of slots with a positive count |
| `MsrLinux.HeldCount` | src/Device/CPU/Utils/MSR/OS/Linux/MSRLinux.cpp:58-98 | in a consistent table there are as many held slots as open descriptors |
| `MsrLinux.Run` | src/Device/CPU/Utils/MSR/OS/Linux/MSRLinux.cpp:58-98 | over any events from any consistent table, the empty one included, the holds are the successful opens less the closes; if each close names a cpu with a slot at that point of the run, the table stays consistent, opens less closes are the held slots, and nothing is closed twice |
| `MsrLinux.CloseConsistentIffKnown` | src/Device/CPU/Utils/MSR/OS/Linux/MSRLinux.cpp:83-98 | closing keeps the table consistent iff the cpu has a slot; an unknown one gets a slot claiming descriptor 0 |
| `MsrLinux.UnknownCloseThenOpen` | src/Device/CPU/Utils/MSR/OS/Linux/MSRLinux.cpp:58-98 | after a close of an unknown cpu its next open succeeds without the kernel and the close after that closes descriptor 0, also while another cpu's slot relies on it |
| `CpuPasses.FillEntry` | src/Device/CPU/Intel/IntelCPU.cpp:419-467 | with the cpu group on, the calls made are one open of this cpu and, if it succeeded, one read and one close; holds are as before, the entry is what they gave, and an error is reported exactly for a failed open |
| `CpuPasses.ApplyEntry` | src/Device/CPU/Intel/IntelCPU.cpp:492-612 | with the cpu group on, the calls made are one open of this cpu and, if it succeeded, one write and one close; holds are as before, a failed write is always reported and a failed open only for the package |
| `CpuPasses.FillThreads` | src/Device/CPU/Intel/IntelCPU.cpp:485-486 | reads every logical cpu once, in order, and yields what each visit gave |
| `CpuPasses.ApplyThreads` | src/Device/CPU/Intel/IntelCPU.cpp:651-652 | writes every logical cpu once, in order; an error comes exactly from a failed write |
| `CpuPasses.Bracket` | src/Device/CPU/Intel/IntelCPU.cpp:576-593 | opening one cpu, accessing it and closing another moves one hold from the other to the one, and keeps a consistent table consistent iff the open failed or the closed cpu has a slot |
| `CpuPasses.IntelCPU.FillDaemonPacket` | src/Device/CPU/Intel/IntelCPU.cpp:469-490 | a fill pass visits cpu 0, the listed cores and every logical cpu, in that order and no other, shows exactly what the visits gave, is balanced whichever opens fail, reports exactly the failures, and with the module loaded leaves a slot for every logical cpu |
| `CpuPasses.IntelCPU.ApplyCoreSettings` | src/Device/CPU/Intel/IntelCPU.cpp:576-593 | from any state the one open is of `coreIdx` and the one close of `cpu`, so that the first is held once more and the second once less; a failed write is the only error; a consistent table stays consistent iff nothing was opened, both are the same, or `cpu` has a slot |
| `CpuPasses.IntelCPU.ApplySettings` | src/Device/CPU/Intel/IntelCPU.cpp:614-658 | mismatching data is refused untouched; otherwise exactly cpu 0, the listed cores and every logical cpu are opened and written, in that order; `NO_MSR_FD` is reported iff the first open failed, a write error iff some write failed; the holds change as by the core loop alone, so not at all when cores sit at their own index |
| `CpuPasses.IntelCPU.ApplyCores` | src/Device/CPU/Intel/IntelCPU.cpp:648-649 | over any core list each listed cpu is opened and each core number closed, in order; the holds afterwards are those of `CorePass`; a consistent table stays consistent if every cpu the loop closes has a slot by then |
| `CpuPasses.CorePassBalancedIff` | src/Device/CPU/Intel/IntelCPU.cpp:576-652 | from rest and for given open results the core loop leaves nothing held iff every core that opened sits at its own index |
| `CpuPasses.CorePassAlwaysBalancedIff` | src/Device/CPU/Intel/IntelCPU.cpp:576-652 | from rest the core loop leaves nothing held whichever opens succeed iff every core sits at its own index |
| `CpuPasses.LeakingWitness` | src/Device/CPU/Intel/IntelCPU.cpp:576-593 | cores on cpus 0 and 2 leave cpu 2 open |
| `CpuPasses.LeakGrows` | src/Device/CPU/Intel/IntelCPU.cpp:576-652 | with every open succeeding, a listed cpu that is no core number is held k times after k passes |
| `CpuPasses.BoundedIff` | src/Device/CPU/Intel/IntelCPU.cpp:576-652 | for distinct cpus and succeeding opens, no number of passes holds a cpu more than once iff all listed cpus are core numbers |
| `CpuPasses.MisplacedGrows` | src/Device/CPU/Intel/IntelCPU.cpp:576-652 | any misplaced core is held m times after m passes in which only its open succeeds |
| `CpuPasses.AMDCPU.FillDaemonPacket` | src/Device/CPU/AMD/AMDCPU.cpp:149-170 | a fill pass visits cpu 0 and every logical cpu, in that order and no other, shows exactly what the visits gave, is balanced and reports exactly the failed opens |
| `CpuPasses.AMDCPU.ApplySettings` | src/Device/CPU/AMD/AMDCPU.cpp:219-261 | an apply pass writes cpu 0 and every logical cpu, in that order and no other, is balanced, and reports exactly a failed first open and failed writes; mismatching counts are refused, each with its own error |
| `CpuPasses.FillThenApply` | src/Device/CPU/Intel/IntelCPU.cpp:469-658 | for any core list of the machine's length, what a fill pass delivers is never refused by an apply pass; with the module loaded the pair keeps a consistent table consistent wherever the cores sit |
| `EcRam.GpdECRamRead` | src/Device/OS/Windows/OSWindows.cpp:1070-1087 | from any latch state a read returns the addressed cell and changes no RAM |
| `EcRam.GpdECRamWrite` | src/Device/OS/Windows/OSWindows.cpp:1089-1102 | a write updates exactly the addressed cell, or nothing if any port step fails |
| `EcRam.WriteThenRead` | src/Device/OS/Windows/OSWindows.cpp:1070-1102 | the two transactions are a memory with 16-bit addresses |
| `EcRam.BoardsAreOk` | src/Device/FAN/GPD/GPDWinMiniFanBoard.h:27-36 | every board of the table has the ports, cells and maximum duty cycle of its header, with distinct ports, at least one cell of each kind, and a maximum of 1 to 255 |
| `EcRam.PwmMonotone` | src/Device/OS/Windows/OSWindows.cpp:1209-1209 | the duty cycle never falls with the speed, is 1 at zero or less and the maximum from 100 percent |
| `EcRam.PwmIsShare` | src/Device/OS/Windows/OSWindows.cpp:1209-1209 | from 1 up to 100 percent of the maximum it is that share, rounded down |
| `EcRam.GetGPDFanMode` | src/Device/OS/Windows/OSWindows.cpp:1159-1166 | automatic iff the first mode cell is zero; nothing is changed |
| `EcRam.SetGPDFanMode` | src/Device/OS/Windows/OSWindows.cpp:1184-1205 | success leaves every mode cell at the board's value for the requested mode and all other cells alone; failure has written a prefix of the mode cells |
| `EcRam.SetGPDFanSpeed` | src/Device/OS/Windows/OSWindows.cpp:1207-1220 | in automatic mode, and when the mode cannot be read, success without a write; otherwise a prefix of the speed cells gets the clamped duty cycle, all of them on success |
| `EcRam.SpeedKeepsManual` | src/Device/OS/Windows/OSWindows.cpp:1207-1220 | a speed command keeps every manual board manual, even where speed and mode cells coincide, switches no board to automatic mode, and changes nothing if its own board is automatic |
| `EcRam.SpeedKeepsAuto` | src/Device/FAN/GPD/GPDWinMiniFanBoard.h:27-36 | among the boards of the table a speed command never wakes one in automatic mode, because a speed cell is another board's first mode cell only where both have the same first mode cell |
| `EcRam.ZeroWouldSwitchToAuto` | src/Device/FAN/GPD/GPDWinMiniFanBoard.h:32-33 | without the clamp a zero would switch such a board to automatic mode |
| `FanDevice.InsertionSort` | src/Device/FAN/FANDevice.cpp:56-58 | a sorted permutation of the points exists for every curve |
| `FanDevice.SelectionIsGreatestBelow` | src/Device/FAN/FANDevice.cpp:75-80 | on a sorted curve the speed belongs to the greatest threshold strictly below the temperature, or to the lowest point |
| `FanDevice.SpeedMonotone` | src/Device/FAN/FANDevice.cpp:75-80 | the speed does not fall with temperature if speeds do not fall along the curve |
| `FanDevice.OrderIndependentIffConsistent` | src/Device/FAN/FANDevice.cpp:54-80 | the result is independent of the client's point order iff equal thresholds come with equal speeds |
| `FanDevice.FANDevice.PrepareForSleep` | src/Device/FAN/FANDevice.cpp:46-49 | success leaves the fan in automatic mode with only its mode cells zeroed |
| `FanDevice.FANDevice.ApplySettings` | src/Device/FAN/FANDevice.cpp:51-67 | the curve becomes a sorted permutation of the points, the mode is set, and then a single point is commanded as a fixed speed; without failing ports every cell is given outright (`SetAsAsked`): in manual mode the speed cells hold the point's duty cycle, in automatic mode none is commanded |
| `FanDevice.FANDevice.ApplyCurve` | src/Device/FAN/FANDevice.cpp:69-81 | the backward scan commands exactly the selected point's speed; without temperature or points nothing happens; without failing ports RAM afterwards is exactly `CurveRam` |
| `Device.Device.SetupFanCurveTimer` | src/Device/Device.cpp:136-146 | the timer is absent when disabled, kept when present, and otherwise created stopped |
| `Device.Device.PrepareForSleep` | src/Device/Device.cpp:148-158 | if every fan answered, all are in automatic mode, every mode cell is zero and every other cell as before, for any number of fans |
| `Device.Device.FillPacketDeviceData` | src/Device/Device.cpp:160-177 | filling a packet changes no RAM and leaves an existing timer running |
| `Device.Device.ApplySettings` | src/Device/Device.cpp:179-213 | afterwards the timer exists iff some addressed fan has a manual mode and several points, and runs; addressed fans hold their sorted curves, the others theirs; without failing ports a fan that shares no cell has the mode and fixed speed asked for, or runs at the speed its curve selects, and RAM is the fold of all the fans' settings followed by the immediate tick |
| `Device.Device.ApplyFans` | src/Device/Device.cpp:192-204 | the loop over the fans: curves and the request for a timer for any number of fans, and RAM as the fold of their settings without failing ports |
| `Device.Device.OnFanCurveTimerTimeout` | src/Device/Device.cpp:215-244 | a tick re-arms the timer; whichever ports fail, manual boards stay manual and automatic boards of the table automatic; without failing ports every cell holds what the last fan to command it asked for, and is unchanged if none did (`TickExact`) |
| `Device.Device.TickKeepsModes` | src/Device/Device.cpp:215-244 | no board of the table changes its mode in a tick |
| `Device.Device.TickIsExact` | src/Device/Device.cpp:215-244 | the fold of the fans' ticks leaves every cell as its last manual fan with a curve commanded it |
| `Device.Device.SettingsAlone` | src/Device/Device.cpp:192-204 | a fan that shares no cell ends as its own data asks, whatever the other fans were sent |
| `Device.Device.RunBetweenApplies` | src/Device/Device.cpp:160-244 | over any run of ticks and fills manual boards stay manual, automatic ones of the table automatic, and if all fans start automatic RAM does not change at all |
| `Device.Device.SleepThenRun` | src/Device/Device.cpp:148-244 | after a successful sleep preparation no tick changes RAM until the next apply |
| `SchemeUpdate.SetPowerValue` | src/Device/OS/Windows/OSWindows.cpp:280-298 | only this setting of the named scheme can change; each value is passed to the system exactly unless it is -1 and the setting has a value of its kind, the second also when the first fails; success comes exactly when both can be written and no call failed, and means both are stored |
| `SchemeUpdate.WriteSetting` | src/Device/OS/Windows/OSWindows.cpp:960-969 | one entry: nothing is passed on for an unknown GUID; success comes exactly when it can be written and no call failed, and means its values are stored |
| `SchemeUpdate.WriteSettings` | src/Device/OS/Windows/OSWindows.cpp:960-970 | every entry is attempted whatever fails; an error comes exactly from a failed call or an entry that cannot be written, and without one every setting not overridden later is stored |
| `SchemeUpdate.DuplicatePowerScheme` | src/Device/OS/Windows/OSWindows.cpp:387-418 | success adds exactly a renamed copy under a new GUID; failure leaves the store as it was, or with exactly one unnamed copy, which happens exactly when check and duplication succeed and the name cannot be written |
| `SchemeUpdate.CreatePowerScheme` | src/Device/OS/Windows/OSWindows.cpp:429-449 | success maps the key to a fresh copy of the base under the new name and adds nothing else; failure leaves the map alone and the store as it was or with one copy, under the same exact condition |
| `SchemeUpdate.LeftoverWitness` | src/Device/OS/Windows/OSWindows.cpp:387-449 | a creation whose name cannot be written leaves two schemes where one was, and no key for the second |
| `SchemeUpdate.UpdateScheme` | src/Device/OS/Windows/OSWindows.cpp:920-971 | one kept scheme: without errors an installed one to be reset has its defaults, any other holds its settings, and a new one its name; only its own GUID is touched, the store gains its GUID or at most one unnamed copy, and its errors are exactly those of failed calls, a failed creation and entries that cannot be written |
| `PowerSchemes.UpdateSchemes` | src/Device/OS/Windows/OSWindows.cpp:911-971 | after the loop the store has gained exactly the map's fresh duplicates and the unnamed ones, kept schemes are settled if there was no error, the errors are explained exactly, and the delete list is exactly the flagged, installed, not active ones |
| `PowerSchemes.FindBase` | src/Device/OS/Windows/OSWindows.cpp:902-909 | the base is the GUID of the first entry that is kept and installed, and none if there is no such entry |
| `PowerSchemes.BaseIsFirst` | src/Device/OS/Windows/OSWindows.cpp:902-909 | the recursive description picks that first entry too, for every request |
| `PowerSchemes.DoomedAre` | src/Device/OS/Windows/OSWindows.cpp:914-918 | a GUID is in the delete list iff a flagged installed scheme other than the active one has it |
| `PowerSchemes.DoomedAppend` | src/Device/OS/Windows/OSWindows.cpp:914-918 | the delete list of two requests one after the other is the two lists one after the other, so it keeps request order |
| `PowerSchemes.DoomedSpares` | src/Device/OS/Windows/OSWindows.cpp:902-992 | no kept, created, activated or duplicated GUID is in the delete list |
| `PowerSchemes.DeleteSchemes` | src/Device/OS/Windows/OSWindows.cpp:988-992 | one call per listed scheme in order; exactly those whose deletion succeeded are gone, the others untouched |
| `PowerSchemes.SetPowerSchemes` | src/Device/OS/Windows/OSWindows.cpp:896-995 | no errors means the store holds exactly the schemes asked for and those not mentioned, settled as requested; a reliable system reports none iff the request is possible; with or without errors the calls the system received are creations and work first, then at most one activation, then the deletions, nothing created, activated or duplicated from is deleted, and unrelated schemes are untouched (`Outcome` and `Safety`) |
| `PowerSchemes.PhasesSafe` | src/Device/OS/Windows/OSWindows.cpp:896-995 | of the calls received, every duplicate is made of the first kept scheme that is installed, under a new GUID, work and activation spare the delete list, and the deletions are exactly that list; the map extends the installed one by fresh copies |
| `PowerSchemes.CopiesAreOfFirst` | src/Device/OS/Windows/OSWindows.cpp:902-945 | no duplicate is made of any scheme but the first kept installed one |
| `PowerSchemes.StoreSafe` | src/Device/OS/Windows/OSWindows.cpp:896-995 | schemes the request neither keeps nor deletes are as before; the new ones are exactly those of the map's new keys, none of them lost again, and the unnamed copies, at most one per kept scheme the map lacks; the active scheme is the activated or the old one and still exists, unless activation failed and the old one was to be deleted |
| `PowerSchemes.NothingLeftIff` | src/Device/OS/Windows/OSWindows.cpp:387-449 | no scheme that nothing names is left iff every duplicate got its name |
| `PowerSchemes.ErrorsAreTold` | src/Device/OS/Windows/OSWindows.cpp:896-995 | each error kind is reported exactly for a failed call of its kind, a kept scheme missing from the map, a reached entry that cannot be written, or nothing to activate; whatever fails, every kept scheme is still handled |
| `PowerSchemes.OutcomeHolds` | src/Device/OS/Windows/OSWindows.cpp:896-995 | without errors the request is achieved, with no scheme added or gone but as asked, and was possible; on a reliable system a possible request gives none |
| `DaemonService.MemorySnoc` | src/Service/DaemonService.cpp:170-198 | the memory after one more apply is the old memory with that apply remembered |
| `DaemonService.RememberedWasClean` | src/Service/DaemonService.cpp:170-198 | the stored packet was applied without errors, every later apply was a re-apply or a failed profile, and the active profile is where it came from |
| `DaemonService.ReappliedWasClean` | src/Service/DaemonService.cpp:444-508 | every re-applied packet was once applied without errors from a client or a profile |
| `DaemonService.ProfileImpliesPacket` | src/Service/DaemonService.cpp:182-198 | an active profile implies a stored packet |
| `DaemonService.DaemonService.SetApplyTimer` | src/Service/DaemonService.cpp:98-114 | the timer exists iff the interval exceeds the minimum, with the configured interval, and runs |
| `DaemonService.DaemonService.ApplyHardware` | src/Service/DaemonService.cpp:170-198 | hardware is only applied while the timer is stopped, and each apply extends the history and its memory |
| `DaemonService.DaemonService.ApplyClientSettings` | src/Service/DaemonService.cpp:170-180 | a clean client apply stores the packet, a failed one forgets everything, either way no profile is active; the result is sent |
| `DaemonService.DaemonService.ApplyProfileSettings` | src/Service/DaemonService.cpp:182-198 | the profile of that name is applied if it loads; a clean apply stores packet and name, any failure keeps both |
| `DaemonService.DaemonService.ApplyDaemonSettings` | src/Service/DaemonService.cpp:245-268 | decoded settings take effect with their timer, a changed address restarts the server, undecodable ones change nothing |
| `DaemonService.DaemonService.Start` | src/Service/DaemonService.cpp:270-317 | after start the timer matches the loaded settings and exactly the start profile was applied, if one is set and loads |
| `DaemonService.DaemonService.ReloadSettings` | src/Service/DaemonService.cpp:319-338 | a reload stops the timer and the server, takes the settings from disk if they load, applies exactly the start profile, if one is set and loads, and leaves the timer as the settings say |
| `DaemonService.DaemonService.ApplyClientCommand` | src/Service/DaemonService.cpp:362-388 | a foreign, broken or undecodable packet is answered with its error and changes nothing |
| `DaemonService.DaemonService.ServeCommand` | src/Service/DaemonService.cpp:355-438 | every other command gets exactly its answer, none for an import whose data does not unpack |
| `DaemonService.AnsweredIff` | src/Service/DaemonService.cpp:345-442 | a message gets no answer iff it is an import whose data does not unpack |
| `DaemonService.ApplyingCommands` | src/Service/DaemonService.cpp:362-433 | what a client packet, a profile command and new daemon settings do to settings, history and signals, in terms of the message alone |
| `DaemonService.ServedCommands` | src/Service/DaemonService.cpp:355-438 | what every other command is answered with; it changes nothing else |
| `DaemonService.ArgumentsNeeded` | src/Service/DaemonService.cpp:345-349 | a message is refused for its arguments exactly if it has too few for its command, or any with a query for the settings |
| `DaemonService.DaemonService.OnCmdReceived` | src/Service/DaemonService.cpp:345-442 | a message has exactly the applies, settings and signals, in order, that the timer-free description gives it, and leaves an existing timer running unless it was refused |
| `DaemonService.DaemonService.OnApplyTimerTimeout` | src/Service/DaemonService.cpp:444-462 | a tick re-applies the stored packet, sends its result and restarts the timer; without a packet nothing happens and it stays stopped |
| `DaemonService.DaemonService.OnBatteryStatusChanged` | src/Service/DaemonService.cpp:464-483 | on battery the battery profile is applied and reported, on mains the mains profile, unless battery events are ignored or its name is empty; one that does not load is reported as failed |
| `DaemonService.DaemonService.OnWakeFromSleepEventTriggered` | src/Service/DaemonService.cpp:489-508 | the stored packet is re-applied if so configured, with exactly its result sent, and then the client is refreshed |
| `DaemonService.DaemonService.Handle` | src/Service/DaemonService.cpp:345-508 | every handler takes exactly the described step in settings, applies and signals, and keeps the invariant that the timer runs whenever it exists and a packet is stored |
| `DaemonService.DaemonService.Run` | src/Service/DaemonService.cpp:270-508 | over any events the daemon does exactly the applies and sends exactly the signals of a description without a timer object, so no re-apply is lost or added; every re-applied packet was clean |
| `DataStream.NatReadsBack` | src/DiskManagers/ProfileUtils/OS/ProfileLinuxUtils.cpp:33-56 | big-endian integers of any width read back in front of any further data |
| `DataStream.BigEndianBytes` | src/DiskManagers/ProfileUtils/OS/ProfileLinuxUtils.cpp:33-56 | byte i of an integer is its i-th most significant one |
| `DataStream.LengthReadsBack` | src/DiskManagers/ProfileDiskManager.cpp:188-192 | lengths read back in both encodings, short and extended |
| `DataStream.BytesReadBack` | src/DiskManagers/ProfileDiskManager.cpp:188-192 | byte arrays of any length read back |
| `DataStream.StringReadsBack` | src/DiskManagers/ProfileDiskManager.cpp:188-188 | strings of any length read back from UTF-16 |
| `DataStream.UnitBytes` | src/DiskManagers/ProfileDiskManager.cpp:188-188 | a string's units take two bytes each, the higher one first |
| `DataStream.ListReadsBack` | src/DiskManagers/ProfileUtils/OS/ProfileLinuxUtils.cpp:33-61 | a list of any length reads back element by element and leaves the rest of the data |
| `DataStream.OutStream.WriteList` | src/DiskManagers/ProfileUtils/OS/ProfileLinuxUtils.cpp:35-36 | the writing loop appends the encoding of the whole list |
| `DataStream.InStream.ReadList` | src/DiskManagers/ProfileUtils/OS/ProfileLinuxUtils.cpp:60-61 | the reading loop reads as many elements as the count says, none for a negative one |
| `ProfileData.SerializeLinuxData` | src/DiskManagers/ProfileUtils/OS/ProfileLinuxUtils.cpp:22-43 | appends the Linux part in its order of fields, count and threads |
| `ProfileData.DeserializeLinuxData` | src/DiskManagers/ProfileUtils/OS/ProfileLinuxUtils.cpp:45-74 | reads the Linux part from any data, complete or not |
| `ProfileData.LinuxReadsBack` | src/DiskManagers/ProfileUtils/OS/ProfileLinuxUtils.cpp:22-74 | the Linux part reads back with its saved fields, read-only ones at defaults, for any number of threads |
| `ProfileData.SerializeFanData` | src/DiskManagers/ProfileUtils/FAN/ProfileFanUtils.cpp:21-26 | appends the fan map behind its version |
| `ProfileData.FansReadBack` | src/DiskManagers/ProfileUtils/FAN/ProfileFanUtils.cpp:21-35 | the fan map reads back |
| `ProfileData.SerializeIntelData` | src/DiskManagers/ProfileUtils/Vendor/ProfileIntelUtils.cpp:21-58 | appends sixteen fields, both counts, cores and threads |
| `ProfileData.DeserializeIntelData` | src/DiskManagers/ProfileUtils/Vendor/ProfileIntelUtils.cpp:60-108 | reads the Intel part from any data, complete or not |
| `ProfileData.IntelReadsBack` | src/DiskManagers/ProfileUtils/Vendor/ProfileIntelUtils.cpp:21-108 | the Intel part reads back with its saved fields, for any number of cores and threads |
| `ProfileData.IntelLayout` | src/DiskManagers/ProfileUtils/Vendor/ProfileIntelUtils.cpp:21-58 | the file's order: version, the sixteen package values, both counts, cores, threads |
| `ProfileData.SerializeAMDData` | src/DiskManagers/ProfileUtils/Vendor/ProfileAMDUtils.cpp:21-60 | appends sixteen fields, both counts, cores and threads |
| `ProfileData.DeserializeAMDData` | src/DiskManagers/ProfileUtils/Vendor/ProfileAMDUtils.cpp:62-112 | reads the AMD part from any data, complete or not |
| `ProfileData.AMDReadsBack` | src/DiskManagers/ProfileUtils/Vendor/ProfileAMDUtils.cpp:21-112 | the AMD part reads back except the package-wide curve optimizer, which is not saved |
| `ProfileData.AMDLayout` | src/DiskManagers/ProfileUtils/Vendor/ProfileAMDUtils.cpp:21-60 | the file's order: version, the sixteen package values, both counts, cores, threads |
| `ProfileData.SerializeLinuxAMDData` | src/DiskManagers/ProfileUtils/OS/ProfileLinuxAMDUtils.cpp:21-35 | appends the P-state status, the count and the threads |
| `ProfileData.LinuxAMDReadsBack` | src/DiskManagers/ProfileUtils/OS/ProfileLinuxAMDUtils.cpp:21-59 | the Linux AMD part reads back for any number of threads |
| `ProfileDiskManager.DiskReadsBack` | src/DiskManagers/ProfileDiskManager.cpp:123-186 | for every vendor, the parts printed one after the other read back |
| `ProfileDiskManager.DiskLayout` | src/DiskManagers/ProfileDiskManager.cpp:123-186 | the order of the parts: Linux, fans, then those of the vendor |
| `ProfileDiskManager.FileReadsBack` | src/DiskManagers/ProfileDiskManager.cpp:72-195 | signature, version, hash, checksum and data read back from the file around the data |
| `ProfileDiskManager.FileLayout` | src/DiskManagers/ProfileDiskManager.cpp:186-195 | the order of the items: signature, version, device hash, checksum, data |
| `ProfileDiskManager.ProfileDiskManager.ProfileRoundTrip` | src/DiskManagers/ProfileDiskManager.cpp:72-232 | the file printed for a packet is accepted on this device and yields exactly the saved fields |
| `ProfileDiskManager.ProfileDiskManager.AcceptedIff` | src/DiskManagers/ProfileDiskManager.cpp:89-118 | of all printed files exactly those with this signature, no later version, this device's hash, a matching checksum and some data are accepted |
| `ProfileDiskManager.ProfileDiskManager.CreateProfileFromPacket` | src/DiskManagers/ProfileDiskManager.cpp:156-195 | prints signature, version 1, device hash, checksum and the data of the packet for the device's vendor, in that order |
| `ProfileDiskManager.ProfileDiskManager.GetProfileData` | src/DiskManagers/ProfileDiskManager.cpp:72-121 | returns the data of an accepted file and nothing at the first mismatch |
| `ProfileDiskManager.ProfileDiskManager.GetDiskData` | src/DiskManagers/ProfileDiskManager.cpp:123-154 | reads the parts of the device's vendor |
| `ProfileDiskManager.ProfileDiskManager.Save` | src/DiskManagers/ProfileDiskManager.cpp:323-328 | the file of that name becomes the packet's, or nothing changes |
| `ProfileDiskManager.ProfileDiskManager.Load` | src/DiskManagers/ProfileDiskManager.cpp:198-232 | the packet becomes what the file yields, or stays as it was |
| `ProfileDiskManager.ProfileDiskManager.LoadAfterSave` | src/DiskManagers/ProfileDiskManager.cpp:198-328 | a saved profile is what a later load yields |
| `ProfileDiskManager.ProfileDiskManager.LoadForDisplay` | src/DiskManagers/ProfileDiskManager.cpp:234-321 | succeeds iff the file is accepted and all counts match, and then shows every saved setting of the profile and everything else as it was (`ProfileShown`); a refused profile leaves exactly the stated parts replaced, and the packet unchanged iff it already held them |
| `ProfileDiskManager.ProfileDiskManager.RefusalChangesSomePacket` | src/DiskManagers/ProfileDiskManager.cpp:234-321 | for every manager some accepted file and live packet with other counts make a refusal that changes the packet |
| `ProfileDiskManager.ProfileDiskManager.SavingWhatIsShownChangesNothing` | src/DiskManagers/ProfileDiskManager.cpp:156-321 | saving the packet on display and loading it again shows the same packet, read-only fields included |
| `ProfileDiskManager.MergeSavedIsIdentity` | src/DiskManagers/ProfileUtils/Vendor/ProfileAMDUtils.cpp:114-141 | merging what a profile keeps of a packet back into it changes nothing |
| `ProfileDiskManager.MergeTwice` | src/DiskManagers/ProfileUtils/OS/ProfileLinuxUtils.cpp:76-121 | merging a profile a second time changes nothing more |
| `ProfileDiskManager.MergeLinuxIff` | src/DiskManagers/ProfileUtils/OS/ProfileLinuxUtils.cpp:76-121 | the merged part is the one with the profile's settings, its values for the devices both have, and the live values of everything else |
| `ProfileDiskManager.MergeIntelIff` | src/DiskManagers/ProfileUtils/Vendor/ProfileIntelUtils.cpp:110-135 | the merged part is the one with all sixteen package fields, every core and every thread request of the profile, and the live rest of each thread |
| `ProfileDiskManager.MergeAMDIff` | src/DiskManagers/ProfileUtils/Vendor/ProfileAMDUtils.cpp:114-141 | the same for AMD, with the live package curve optimizer and P-state limit |
| `ProfileDiskManager.MergeAllIff` | src/DiskManagers/ProfileDiskManager.cpp:234-321 | a packet shows a profile part by part iff it is the merge of the profile into the live packet |
| `ProfileDiskManager.LoadLinuxProfileToDaemonPacket` | src/DiskManagers/ProfileUtils/OS/ProfileLinuxUtils.cpp:76-121 | the profile's settings and the values of devices both have are taken, live ones stay, and devices the machine lacks are skipped |
| `ProfileDiskManager.LoadIntelProfileToDaemonPacket` | src/DiskManagers/ProfileUtils/Vendor/ProfileIntelUtils.cpp:110-135 | all sixteen package fields, every core and every thread request come from the profile, live fields stay |
| `ProfileDiskManager.LoadAMDProfileToDaemonPacket` | src/DiskManagers/ProfileUtils/Vendor/ProfileAMDUtils.cpp:114-141 | every saved field of package, cores and threads comes from the profile, live ones stay |
| `ProfileDiskManager.LoadLinuxAMDProfileToDaemonPacket` | src/DiskManagers/ProfileUtils/OS/ProfileLinuxAMDUtils.cpp:61-67 | the whole part comes from the profile |
| `StreamWorker.ServiceWorker.OnReadyRead` | src/Service/Workers/ServiceWorker.cpp:258-280 | outputs the complete messages in order and keeps the rest, stopping at an empty or corrupt one; nothing on a closed socket |
| `StreamWorker.ServiceWorker.Session` | src/Service/Workers/ServiceWorker.cpp:258-280 | one handler call per arrival gives the fold over the arrivals |
| `StreamWorker.DrainInTwo` | src/Service/Workers/ServiceWorker.cpp:261-279 | handling some bytes and then more is handling them at once, unless the first call stopped early |
| `StreamWorker.DrainWellFormed` | src/Service/Workers/ServiceWorker.cpp:261-279 | complete messages are all output in order and only the incomplete tail stays |
| `StreamWorker.OutputsAre` | src/Service/Workers/ServiceWorker.cpp:273-278 | a message with arguments is passed on unchanged, an empty one answered with an error |
| `StreamWorker.ChunkingIndependence` | src/Service/Workers/ServiceWorker.cpp:258-280 | any split of a stream gives what one call on all of it gives |
| `StreamWorker.WellFormedChunks` | src/Service/Workers/ServiceWorker.cpp:258-280 | every split of non-empty messages emits exactly them and keeps exactly the incomplete tail |
| `StreamWorker.AnySplitWorksIff` | src/Service/Workers/ServiceWorker.cpp:273-276 | every split leads to all outputs iff no message but the last is empty |
| `SmuCache.RyzenAdj.constructor` | src/Device/CPU/AMD/SMU/RyzenAdj.cpp:53-93 | the cache has an entry of the right type for every option that needs one, at its initial value |
| `SmuCache.RyzenAdj.Set` | src/Device/CPU/AMD/SMU/RyzenAdj.cpp:95-116 | a valid, not ignored request is cached and sent, even if the hardware refuses it; anything else is no change |
| `SmuCache.RyzenAdj.SetUnsigned` | src/Device/CPU/AMD/SMU/RyzenAdj.cpp:118-126 | the unsigned setter keeps the entry types iff it requests nothing or the option is not cached |
| `SmuCache.RyzenAdj.SetPowerProfile` | src/Device/CPU/AMD/SMU/RyzenAdj.cpp:436-445 | zero goes to the setpoint command, anything else to the busy one, and both are cached in one entry |
| `SmuCache.RyzenAdj.SetCurveOptimizerAll` | src/Device/CPU/AMD/SMU/RyzenAdj.cpp:447-462 | the offset is cached and its encoding sent |
| `SmuCache.RyzenAdj.SetCurveOptimizerCore` | src/Device/CPU/AMD/SMU/RyzenAdj.cpp:464-475 | only the core's own element of the list changes |
| `SmuCache.CurveAllInjective` | src/Device/CPU/AMD/SMU/RyzenAdj.cpp:451-457 | offsets below half the base stay distinguishable |
| `SmuCache.CurveCoreDecodes` | src/Device/CPU/AMD/SMU/RyzenAdj.cpp:470-470 | the word names its core and its 16-bit offset |
| `SmuCache.RyzenAdj.ApplyPackageSettings` | src/Device/CPU/AMD/SMU/RyzenAdj.cpp:361-413 | every offered request with a cache entry lands in the cache, every offered request is sent, and the errors are exactly the refused ones |
| `SmuCache.RyzenAdj.ApplyCores` | src/Device/CPU/AMD/SMU/RyzenAdj.cpp:415-434 | the list keeps its length and each element takes its own core's request |
| `SmuCache.RyzenAdj.ApplySettings` | src/Device/CPU/AMD/SMU/RyzenAdj.cpp:422-434 | one packet changes the cache exactly where it asks to, sends exactly its commands in order, and reports exactly the refused ones |
| `SmuCache.CommandOrder` | src/Device/CPU/AMD/SMU/RyzenAdj.cpp:361-434 | the package commands go out in the source's order, the last three on Windows only, then power profile, curve optimizer and cores |
| `SmuCache.OfferedIff` | src/Device/CPU/AMD/SMU/RyzenAdj.cpp:361-413 | which package settings are offered, the slow APU limit by the support of the slow limit |
| `SmuCache.RyzenAdj.FillPacketData` | src/Device/CPU/AMD/SMU/RyzenAdj.cpp:286-359 | no typed access can fail; an offered option shows a value that was read, the cache entry when it cannot be read, and nothing valid after any other failure |
| `SmuCache.ShowsNext` | src/Device/CPU/AMD/SMU/RyzenAdj.cpp:422-434 | one more packet keeps the cache equal to the last requests |
| `SmuCache.RyzenAdj.ApplyAllThenFill` | src/Device/CPU/AMD/SMU/RyzenAdj.cpp:286-434 | after any run of applies an offered option without a read command is shown as valid iff it has a cache entry, and then with the last valid request; so is every core's curve offset |
| `SmuCache.CachedIff` | src/Device/CPU/AMD/SMU/RyzenAdj.cpp:53-93 | of the offered options without a read command exactly STAPM, fast, slow and APU slow limit have no entry |
| `SmuCache.UnreadLimitIsLost` | src/Device/CPU/AMD/SMU/RyzenAdj.cpp:53-93 | a valid request for 25000 mW of such a limit is shown as invalid |

## Left out

- Register classes of the same shape as those modelled: IA32_HWP_REQUEST_PKG, the two MCHBAR limits, current and feature registers.
- `getRawTimeWindow`: its result depends on rounding in `log2` and `pow`; the power limit takes an arbitrary optional pair instead, and the setter never compares the time fields.
- `MSRWindows::read` drops the high half of a register; the Linux device is modelled.
- PowerLimit.PkgGet: does not model time windows whose milliseconds leave the C `int` range, where the conversion is undefined.
- PowerLimit.PkgSet: does not model limits whose raw value leaves the C `int` range, where the conversion is undefined.
- EcRam.SetGPDFanSpeed: does not model overflow of `maxPWM * speed`, which needs speeds in the millions.
- DaemonService.DaemonService.SetApplyTimer: does not model overflow of the interval in milliseconds.
- Device.Device.ApplySettings: with failing ports it states the resulting mode for a single fan only, because a later fan whose board shares cells may change it; without failing ports RAM is exact for any number.
- StreamWorker.AnySplitWorksIff: assumes that a handler call comes with new data only.
- ProfileDiskManager.ProfileDiskManager.Save: takes writing a file as all or nothing.
- Enumerating installed power schemes: the map of installed GUIDs is an input of `SetPowerSchemes`, with distinct GUIDs that exist.
- Packets are values held in fields of a `Packet`; the sharing of packet parts through shared pointers is not modelled.
- The scaling factor of readings in `RyzenAdj::get`: a reading is taken after scaling.
- Windows profile data: the same kind of printer and parser as the Linux part.
- Export and import of profiles, listing and watching the folder, and deleting a profile.
- Socket acceptance and replacement, packing of replies, and the command line.
- Sysfs, registry, D-Bus, PCI, kernel module and driver access, and logging.
- CPU, GPU, fan and feature detection, and the information packets.
