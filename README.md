# GreenWake, modelled in Dafny

GreenWake keeps computers awake, wakes them up and forwards connections to them. Its parts are:

- two wake-lock daemons: greenwake-guard for macOS and Linux, and awake for Windows. Each holds or releases a sleep assertion according to a strategy, and reacts to Wake-on-LAN magic packets and to device activity.
- two wake servers that send magic packets to configured PCs and forward TCP ports to them while tracking the connected clients: the wol server (`wol/`), with its React dashboard, and the server at the repository root (`internal/`), which also keeps a registry of dashboard clients. The configuration loader of greenwake-bridge is modelled as well. In the Dafny, the root server's forwarding service is the module `BridgeForward`.
- two small legacy handlers at the repository root: a single-host wake-and-probe endpoint (`app.go`) and a Clash subscription filter (`clash_config.go`).

This project models the sequential logic of those parts:

- the wake-lock state machines and their timers;
- the magic-packet test and the listeners that react to it;
- the parsers for the power-assertion listings of macOS (`pmset`), Linux (`systemd-inhibit`, `loginctl`) and Windows (`powercfg`);
- configuration defaulting;
- the tray menu's list and state logic. The tray (`awake/service/tray/tray.go`) imports awake's wake-lock service by name, but calls valid-event and timeout accessors and a save-config callback that only greenwake-guard's service has, so the model drives `GuardWakeLock.Service`;
- the device-activity monitors and the logger's level gate;
- the two servers' forwarding channels, the client registry and the PC service;
- the legacy handlers;
- the dashboard's pure logic.

Goroutines, timers, sockets, commands and library calls become explicit inputs and steps. Each Go object whose fields change is a Dafny `class` with `modifies` clauses. Each loop is a method proved against a fold or a set-level specification function. The properties the code promises are proved as lemmas about those functions.

Times are integer nanoseconds. Library functions the code calls, such as RFC 3339 parsing and formatting, `time.Duration.String`, YAML decoding, regular-expression matching and the outputs of external commands, are function-typed parameters or plain inputs.

## Model

| member | source | states |
|---|---|---|
| MagicPacket.IsWakePacket | greenwake-guard/service/wakepacket/service.go:118-132 | true exactly for a 102-byte datagram whose first six bytes are 0xFF; every other length is rejected |
| MagicPacket.BuildIsMagic | greenwake-guard/service/wakepacket/service.go:118-132 | every standard magic packet (sync stream then sixteen copies of any MAC) is recognised |
| MagicPacket.PayloadIgnored | greenwake-guard/service/wakepacket/service.go:124-131 | bytes 6..101 are never inspected: two datagrams of equal length agreeing on the sync stream are both accepted or both rejected |
| GuardEventType.Name | greenwake-guard/service/wakeevent/event.go:21-30 | "wol" and "device" get their own names and every other type the unknown-event name, in both directions |
| AwakeEventType.Name | awake/service/wakeevent/event.go:22-33 | the three known types get pairwise different names, every other value the unknown name, in both directions |
| AwakeLogger.ParseLevelCases | awake/pkg/logger/logger.go:29-40 | level names are recognised in any letter case; Info and Error are selected exactly by their names, anything else means Debug |
| AwakeLogger.ParseLevelUpper | awake/pkg/logger/logger.go:29-40 | "DEBUG", "INFO" and "ERROR" select their levels |
| AwakeLogger.RaisingSuppresses | awake/pkg/logger/logger.go:91-107 | raising the threshold never lets through a message that was held back |
| AwakeLogger.Logger.constructor | awake/pkg/logger/logger.go:22-26 | before Init there is no logger and the level is Debug |
| AwakeLogger.Logger.Init | awake/pkg/logger/logger.go:57-83 | on success the logger exists with the parsed level; on a file error nothing changes |
| AwakeLogger.Logger.LogInfo | awake/pkg/logger/logger.go:91-95 | written exactly when the logger exists and the threshold is Debug or Info |
| AwakeLogger.Logger.LogError | awake/pkg/logger/logger.go:97-101 | written exactly when the logger exists |
| AwakeLogger.Logger.LogDebug | awake/pkg/logger/logger.go:103-107 | written exactly when the logger exists and the threshold is Debug |
| PowerTypes.DetailInfoCases | greenwake-guard/pkg/system/prevent_sleep_linux.go:231-248 | this program's record shows its details verbatim; otherwise the cleaned details: single blanks, no other white space, and exactly the words of the details after the replacement, in order; else the reason, else the fixed no-details text |
| PowerTypes.TypeDescriptionCases | greenwake-guard/pkg/system/prevent_sleep_linux.go:203-214 | the three known types get three different descriptions, and exactly the other types get the unknown-type text |
| DarwinAssertions.FlagOf | greenwake-guard/pkg/system/prevent_sleep_darwin.go:124-137 | every assertion name drives one of the six flags or none |
| DarwinAssertions.SetFlagEffect | greenwake-guard/pkg/system/prevent_sleep_darwin.go:124-137 | exactly the named flag takes the value; every other flag keeps its value |
| DarwinAssertions.SystemAssertionEffect | greenwake-guard/pkg/system/prevent_sleep_darwin.go:118-138 | a line of fewer than two fields changes nothing; otherwise the flag named by the first field becomes whether the last field is "1", and no other flag changes |
| DarwinAssertions.FirstKeywordSound | greenwake-guard/pkg/system/prevent_sleep_darwin.go:176-200 | the type found comes from the keyword list, and none is found exactly when the text contains no keyword |
| DarwinAssertions.KindIn | greenwake-guard/pkg/system/prevent_sleep_darwin.go:176-200 | the type is always one of the six fixed names |
| DarwinAssertions.ReasonAlwaysEmpty | greenwake-guard/pkg/system/prevent_sleep_darwin.go:168-173 | the cut at `named: "` keeps the opening quote, so the reason is always empty |
| DarwinAssertions.ProcessKind | greenwake-guard/pkg/system/prevent_sleep_darwin.go:140-206 | every parsed record has one of the six types and an empty reason; a line naming no keyword gets PreventUserIdleSystemSleep |
| DarwinAssertions.PidBack | greenwake-guard/pkg/system/prevent_sleep_darwin.go:144-151 | the PID of a line "pid <n>(..." reads back as n |
| DarwinAssertions.PidParts | greenwake-guard/pkg/system/prevent_sleep_darwin.go:144-151 | the PID text is cut after "pid " and before the "(" |
| DarwinAssertions.NameBack | greenwake-guard/pkg/system/prevent_sleep_darwin.go:154-158 | the name is the text between the first "(" and the next ")" |
| DarwinAssertions.SplitOnce | greenwake-guard/pkg/system/prevent_sleep_darwin.go:237-238 | SplitN at the first separator: two pieces around the first occurrence, or the whole text |
| DarwinAssertions.ParseKernelAssertion | greenwake-guard/pkg/system/prevent_sleep_darwin.go:219-254 | the field loop yields the same record as the reference definition, and nothing unless the line starts with three blanks and "id=" |
| DarwinAssertions.KernelIdLevel | greenwake-guard/pkg/system/prevent_sleep_darwin.go:228-235 | id= and level= fields are read as integers |
| DarwinAssertions.KernelText | greenwake-guard/pkg/system/prevent_sleep_darwin.go:236-249 | any other key=value field is split at its first "=", later "=" signs belonging to the value |
| DarwinAssertions.TrimmedNoKernel | greenwake-guard/pkg/system/prevent_sleep_darwin.go:219-222 | lines are trimmed before parsing, so no kernel assertion is ever produced |
| DarwinAssertions.ParsedDescriptionFixed | greenwake-guard/pkg/system/prevent_sleep_darwin.go:256-290 | a parsed record's description is one of seven fixed texts: the reason table is never consulted |
| DarwinAssertions.KindDescriptionFixed | greenwake-guard/pkg/system/prevent_sleep_darwin.go:256-270 | any record with one of the six types has a fixed description |
| DarwinAssertions.ProcessDetailInfoCases | greenwake-guard/pkg/system/prevent_sleep_darwin.go:293-313 | this program's details verbatim; otherwise exactly the words of the details, in order, with single blanks between them and no tab; else the reason, else the no-details text |
| DarwinAssertions.NoContinuation | greenwake-guard/pkg/system/prevent_sleep_darwin.go:70-77 | lines are trimmed before the tab test, so no continuation line is ever attached |
| DarwinAssertions.AdvanceLine | greenwake-guard/pkg/system/prevent_sleep_darwin.go:45-90 | one iteration of the loop as written is one line's step |
| DarwinAssertions.ParseFromLines | greenwake-guard/pkg/system/prevent_sleep_darwin.go:45-90 | the loop as written equals the line-by-line fold |
| DarwinAssertions.LinesRecords | greenwake-guard/pkg/system/prevent_sleep_darwin.go:66-84 | the records are one per "pid " line of the process section, in input order, after those already collected |
| DarwinAssertions.LinesKernel | greenwake-guard/pkg/system/prevent_sleep_darwin.go:85-88 | the kernel list never grows |
| DarwinAssertions.LineKinds | greenwake-guard/pkg/system/prevent_sleep_darwin.go:47-63 | before any header a line yields nothing; a header switches the section and yields nothing |
| DarwinAssertions.ParseRecords | greenwake-guard/pkg/system/prevent_sleep_darwin.go:42-92 | the whole output yields one record per "pid " line of the process section, in order, and no kernel assertion |
| DarwinAssertions.Provider.constructor | greenwake-guard/pkg/system/prevent_sleep_darwin.go:26-28 | no current-process record yet |
| DarwinAssertions.Provider.ReadProcess | greenwake-guard/pkg/system/prevent_sleep_darwin.go:67-77 | the detail loop gives the record with its continuation lines and leaves the index on the last line taken |
| DarwinAssertions.Provider.ReadRecord | greenwake-guard/pkg/system/prevent_sleep_darwin.go:67-83 | the record is appended and remembered when its PID is this program's |
| DarwinAssertions.Provider.ReadLine | greenwake-guard/pkg/system/prevent_sleep_darwin.go:45-90 | one pass of the loop body leaves the state one step of the specification gives |
| DarwinAssertions.Provider.ReadSectionLine | greenwake-guard/pkg/system/prevent_sleep_darwin.go:63-89 | a non-header line is handled according to its section |
| DarwinAssertions.Provider.GetPreventSleepProcesses | greenwake-guard/pkg/system/prevent_sleep_darwin.go:30-93 | a failed command is an error and changes nothing; otherwise the result and the remembered record are those of the specification fold |
| LinuxInhibitors.InhibitorTypeCases | greenwake-guard/pkg/system/prevent_sleep_linux.go:80-96 | sleep and the power, suspend and hibernate keys block system sleep; exactly handle-lid-switch blocks display sleep; everything else blocks idle sleep |
| LinuxInhibitors.InhibitorRecordFields | greenwake-guard/pkg/system/prevent_sleep_linux.go:62-114 | a line gives a record exactly when it is not blank, not the WHO header, has at least seven columns and an integer PID column; the record holds that PID, the COMM column, the fields from the seventh on (the source's `why`) joined by single blanks, the mapped type and the line itself, followed by the command line when it could be read |
| LinuxInhibitors.ReasonOfSevenFields | greenwake-guard/pkg/system/prevent_sleep_linux.go:68-80 | as written, a line of exactly seven fields (a one-word WHY) gives the MODE column alone as its reason, because the reason is taken from the seventh field on while WHY starts at the sixth |
| LinuxInhibitors.InhibitorRecordOf | greenwake-guard/pkg/system/prevent_sleep_linux.go:98-112 | the record built from a kept line, with the line alone as the start of its details |
| LinuxInhibitors.KeptStep | greenwake-guard/pkg/system/prevent_sleep_linux.go:62-122 | one more line appends that line's record, if any |
| LinuxInhibitors.KeptAppend | greenwake-guard/pkg/system/prevent_sleep_linux.go:62-122 | records follow the lines: two consecutive runs of lines give the first run's records followed by the second's |
| LinuxInhibitors.SystemdRecordsAppend | greenwake-guard/pkg/system/prevent_sleep_linux.go:62-122 | the same for the systemd-inhibit listing |
| LinuxInhibitors.KeptWellFormed | greenwake-guard/pkg/system/prevent_sleep_linux.go:62-122 | never more records than lines, and each well formed when every single record is |
| LinuxInhibitors.SystemdRecordsWellFormed | greenwake-guard/pkg/system/prevent_sleep_linux.go:62-122 | every record has a one-word name and one of the three types; never more records than lines |
| LinuxInhibitors.SelfRecordIsLast | greenwake-guard/pkg/system/prevent_sleep_linux.go:116-119 | the remembered record is the previous one when no record has this program's PID, otherwise the last record with it |
| LinuxInhibitors.FirstIdleIsFirst | greenwake-guard/pkg/system/prevent_sleep_linux.go:138-148 | the scan stops at the first line containing IdleHint=no |
| LinuxInhibitors.LoginSessionCases | greenwake-guard/pkg/system/prevent_sleep_linux.go:138-151 | at most one record, exactly when some line contains IdleHint=no; its details are every earlier line followed by a bar separator and then that line |
| LinuxInhibitors.GnomeRecordsCases | greenwake-guard/pkg/system/prevent_sleep_linux.go:172-183 | a GNOME record exactly when the trimmed idle delay reads "uint32 0"; it blocks idle sleep |
| LinuxInhibitors.DpmsRecordsCases | greenwake-guard/pkg/system/prevent_sleep_linux.go:185-198 | an X11 record exactly when the report says DPMS is disabled; it blocks display sleep and its details are the report alone |
| LinuxInhibitors.ProcessDetailInfoCases | greenwake-guard/pkg/system/prevent_sleep_linux.go:231-248 | this program's details verbatim; otherwise the words of the details' lines joined by a blank-bar-blank separator, in order, with single blanks between words and no line break; else the reason, else the no-details text |
| LinuxInhibitors.Provider.constructor | greenwake-guard/pkg/system/prevent_sleep_linux.go:19-21 | no record remembered yet |
| LinuxInhibitors.Provider.GetSystemdInhibitors | greenwake-guard/pkg/system/prevent_sleep_linux.go:51-125 | a failed command is an error and changes nothing; otherwise the records are those of the listing in order, and the remembered record is updated as SelfRecordIsLast says |
| LinuxInhibitors.Provider.GetLoginSessionInhibitors | greenwake-guard/pkg/system/prevent_sleep_linux.go:127-154 | a failed command is an error; otherwise the session records of the listing |
| LinuxInhibitors.Provider.GetPreventSleepProcesses | greenwake-guard/pkg/system/prevent_sleep_linux.go:23-49 | the systemd, session and (on a desktop) desktop records, in that order; a failed command contributes nothing; no flags and no kernel assertions |
| WindowsRequests.EntryNameCases | awake/pkg/system/prevent_sleep_windows.go:74-82 | a process entry is named by the text after its last backslash, a suffix of the line without backslashes; a driver or service is named by its whole line |
| WindowsRequests.HeaderLine | awake/pkg/system/prevent_sleep_windows.go:45-60 | a DISPLAY:, SYSTEM: or AWAYMODE: line sets the current type and the header text and emits nothing |
| WindowsRequests.EntryLine | awake/pkg/system/prevent_sleep_windows.go:63-89 | an entry line emits the pending record only when it has a name and opens a new record of the current type; its details are the header and the line when a header was seen, else the line |
| WindowsRequests.DetailLine | awake/pkg/system/prevent_sleep_windows.go:90-96 | any other line is appended to the pending record's details and the first such line becomes its reason; without a pending record it is ignored |
| WindowsRequests.ScannedGood | awake/pkg/system/prevent_sleep_windows.go:38-102 | after any prefix of the report every record has a name and a section type, and the record names are the names of the named entry lines in input order |
| WindowsRequests.RequestsCount | awake/pkg/system/prevent_sleep_windows.go:38-102 | the report yields one record per entry line with a name, in input order: record k carries the name of the k-th named entry line; each is named and typed (the type empty before any header) |
| WindowsRequests.NoEntryNoRecord | awake/pkg/system/prevent_sleep_windows.go:90-102 | lines before the first entry produce nothing |
| WindowsRequests.FirstNamedAt | awake/pkg/system/prevent_sleep_windows.go:105-110 | this program's record is the first one carrying its name, and none when no record has it |
| WindowsRequests.ProcessDetailInfoCases | awake/pkg/system/prevent_sleep_windows.go:143-160 | this program's details verbatim; otherwise the words of the details with every CR-LF pair replaced by a blank-bar-blank separator, in order, with single blanks between words and no CR or LF; else the reason, else the no-details text |
| WindowsRequests.Provider.constructor | awake/pkg/system/prevent_sleep_windows.go:17-19 | no record remembered yet |
| WindowsRequests.Provider.ReadLine | awake/pkg/system/prevent_sleep_windows.go:39-96 | one pass of the loop body is one step of the specification scan |
| WindowsRequests.Provider.ScanRequests | awake/pkg/system/prevent_sleep_windows.go:38-102 | the parse loop and the final flush give the records of the report as the specification scan defines them |
| WindowsRequests.Provider.FindNamed | awake/pkg/system/prevent_sleep_windows.go:104-110 | the search stops at the first record with the given name, which is one of the records; none when no record has it |
| WindowsRequests.Provider.GetPreventSleepProcesses | awake/pkg/system/prevent_sleep_windows.go:21-113 | a failed command is an error and changes nothing; otherwise the records of the whole report, and the first one named like this program is remembered (the previous one stays when none is) |
| GuardClock.ClockFields | greenwake-guard/service/wakelock/service.go:295-298 | the hour, minute and second fields (Go's truncating division) add back up to the remaining seconds, minutes and seconds below 60, and non-negative for non-negative input |
| GuardClock.ClockRoundTrip | greenwake-guard/service/wakelock/service.go:293-298 | the "%02d:%02d:%02d" text reads back as the remaining seconds |
| GuardClock.ClockZero | greenwake-guard/service/wakelock/service.go:293-300 | zero seconds show as "00:00:00" |
| GuardWakeLock.Cancelled | greenwake-guard/service/wakelock/service.go:211-217 | after cancelSleepTimer no timer exists, and a consistent state only loses its timer |
| GuardWakeLock.AtLeastMin | greenwake-guard/service/wakelock/service.go:407-412 | the stored value is the given one when at least 30, else 30 |
| GuardWakeLock.InvalidEventIgnored | greenwake-guard/service/wakelock/service.go:138-150 | an event type that is not listed changes nothing: no timer change, no lock change, flag untouched |
| GuardWakeLock.ValidEventWakes | greenwake-guard/service/wakelock/service.go:156-185 | after a listed event no sleep timer is pending, the lock is held, the temporary-wake flag is set, the type is recorded and one more timeout is armed |
| GuardWakeLock.WakeTimeoutReleases | greenwake-guard/service/wakelock/service.go:172-185 | the timeout clears the flag and releases the lock only if the temporary wake was still on |
| GuardWakeLock.SetStrategyLock | greenwake-guard/service/wakelock/service.go:242-268 | permanent and timed cancel the sleep timer and hold the lock, timed records the duration and its whole seconds, every other strategy releases the lock |
| GuardWakeLock.CheckStartsTimer | greenwake-guard/service/wakelock/service.go:124-130 | checkStatus starts the sleep timer exactly when the strategy is external wake, no temporary wake is on, the mode is program and no timer exists; checking again changes nothing |
| GuardWakeLock.StoppedPanics | greenwake-guard/service/wakelock/service.go:220-225 | after Stop a second Stop panics, and a later SetSleepMode panics exactly when it switches to system mode; before Stop no mode change panics |
| GuardWakeLock.SetSleepModeEffect | greenwake-guard/service/wakelock/service.go:327-344 | choosing the current mode is a no-op; switching to system mode leaves no sleep timer |
| GuardWakeLock.SystemModeNeverSchedulesSleep | greenwake-guard/service/wakelock/service.go:124-130 | in system mode neither a check nor a timed expiry arms the sleep timer |
| GuardWakeLock.InitializeEffect | greenwake-guard/service/wakelock/service.go:363-386 | InitializeState sets strategy, mode and duration, clears the temporary wake and the timer, and holds the lock exactly for permanent and timed |
| GuardWakeLock.TransitionsConsistent | greenwake-guard/service/wakelock/service.go:194-217 | every operation and callback keeps the timer bookkeeping consistent: a sleep timer fires only while still referenced, never in system mode |
| GuardWakeLock.Service.constructor | greenwake-guard/service/wakelock/service.go:45-63 | settings from the configuration, no timer, lock not held |
| GuardWakeLock.Service.CancelSleepTimer | greenwake-guard/service/wakelock/service.go:211-217 | the new state is Cancelled of the old |
| GuardWakeLock.Service.StartSleepTimer | greenwake-guard/service/wakelock/service.go:194-208 | a fresh timer replaces any previous one |
| GuardWakeLock.Service.CheckStatus | greenwake-guard/service/wakelock/service.go:91-131 | the new state is Checked of the old |
| GuardWakeLock.Service.RunCheckTimer | greenwake-guard/service/wakelock/service.go:66-88 | any number of ticks leaves the state of one check |
| GuardWakeLock.Service.HandleWakeEvent | greenwake-guard/service/wakelock/service.go:134-191 | the new state is Woken of the old |
| GuardWakeLock.Service.HandleWakePacket | greenwake-guard/service/wakelock/service.go:304-309 | a "wol" wake event |
| GuardWakeLock.Service.FireWakeTimeout | greenwake-guard/service/wakelock/service.go:172-185 | the new state is TimedOut of the old |
| GuardWakeLock.Service.SetStrategy | greenwake-guard/service/wakelock/service.go:242-282 | the new state is StrategySet of the old |
| GuardWakeLock.Service.FireTimedExpiry | greenwake-guard/service/wakelock/service.go:255-261 | the lock is released and, in program mode, the sleep timer started |
| GuardWakeLock.Service.FireInitExpiry | greenwake-guard/service/wakelock/service.go:380-382 | the lock is released |
| GuardWakeLock.Service.FireSleepTimer | greenwake-guard/service/wakelock/service.go:202-207 | the lock is released and one more forced sleep is requested |
| GuardWakeLock.Service.SetSleepMode | greenwake-guard/service/wakelock/service.go:327-355 | the new state is ModeSet of the old, and the call panics exactly when it switches to system mode after Stop has closed the done channel |
| GuardWakeLock.Service.InitializeState | greenwake-guard/service/wakelock/service.go:363-397 | the new state is Initialized of the old |
| GuardWakeLock.Service.Stop | greenwake-guard/service/wakelock/service.go:220-225 | the first Stop closes the done channel, cancels the timer and releases the lock; a second Stop panics and changes nothing |
| GuardWakeLock.Service.SetProgramSleepDelay | greenwake-guard/service/wakelock/service.go:407-416 | only the delay changes, to AtLeastMin of the argument |
| GuardWakeLock.Service.SetTimeoutSecs | greenwake-guard/service/wakelock/service.go:424-433 | only the wake timeout changes, to AtLeastMin of the argument |
| GuardWakeLock.Service.SetValidEvents | greenwake-guard/service/wakelock/service.go:441-452 | only the event list changes |
| GuardWakeLock.Service.SetDuration | greenwake-guard/service/wakelock/service.go:322-324 | only the duration changes |
| GuardWakeLock.Service.GetRemainingTime | greenwake-guard/service/wakelock/service.go:285-290 | the stored seconds under timed, otherwise 0: the reference value that FormatRemainingTime's text reads back as |
| GuardWakeLock.Service.FormatRemainingTime | greenwake-guard/service/wakelock/service.go:293-301 | "00:00:00" unless timed; otherwise a text that reads back as the remaining seconds |
| AwakeWakeLock.ReadDisplayOf | awake/service/wakelock/service.go:62-67 | each of the three display shapes, built from non-negative fields, reads back as their total in seconds |
| AwakeWakeLock.DisplayRoundTrip | awake/service/wakelock/service.go:52-68 | the remaining-time text reads back as the whole seconds left |
| AwakeWakeLock.DisplayFields | awake/service/wakelock/service.go:58-60 | the hour, minute and second fields add up to the whole seconds; minutes and seconds stay below 60 |
| AwakeWakeLock.SameStrategyNoOp | awake/service/wakelock/service.go:108-111 | choosing the current strategy again does nothing unless it is timed |
| AwakeWakeLock.NonPositiveTimedKeepsStrategy | awake/service/wakelock/service.go:113-132 | a timed wake of no positive length keeps the previous strategy, but the running timers have already been stopped |
| AwakeWakeLock.SetStrategyLock | awake/service/wakelock/service.go:133-179 | wol_wake releases the lock, permanent and timed hold it, and a timed wake records its duration and start time |
| AwakeWakeLock.TimerExpiry | awake/service/wakelock/service.go:158-175 | expiry while still timed switches to wol_wake and releases the lock; if the strategy changed meanwhile nothing happens |
| AwakeWakeLock.ForceSystemSleepEffect | awake/service/wakelock/service.go:212-235 | the timer is cleared, the lock released and the strategy set to wol_wake whatever the sleep mode; only system mode asks the operating system to sleep |
| AwakeWakeLock.RemainingBounds | awake/service/wakelock/service.go:238-255 | 0 unless timed with a live timer; otherwise the duration less the time elapsed, never negative and never more than the duration |
| AwakeWakeLock.DisplayShape | awake/service/wakelock/service.go:52-68 | empty exactly when nothing is left; a zero hour field is left out, and minutes too when both are zero |
| AwakeWakeLock.Service.constructor | awake/service/wakelock/service.go:36-42 | wol_wake under system sleep mode, lock not held |
| AwakeWakeLock.Service.SetStrategy | awake/service/wakelock/service.go:104-180 | the new state is StrategySet of the old |
| AwakeWakeLock.Service.FireTimer | awake/service/wakelock/service.go:158-175 | the new state is TimerFired of the old |
| AwakeWakeLock.Service.FireUpdateTimer | awake/service/wakelock/service.go:78-99 | the update timer stops once the strategy is no longer timed, and is re-armed otherwise |
| AwakeWakeLock.Service.SetSleepMode | awake/service/wakelock/service.go:197-202 | only the sleep mode changes |
| AwakeWakeLock.Service.ForceSystemSleep | awake/service/wakelock/service.go:212-235 | the new state is ForcedSleep of the old; the error is the operating system's in system mode and none in program mode |
| AwakeWakeLock.Service.GetRemainingTime | awake/service/wakelock/service.go:238-255 | what RemainingBounds describes, between 0 and the duration |
| AwakeWakeLock.Service.FormatRemainingTime | awake/service/wakelock/service.go:52-68 | empty exactly when nothing is left, and otherwise a text that reads back as the whole seconds left |
| GuardWakePacket.Live | greenwake-guard/service/wakepacket/service.go:71-107 | the loop runs up to the first closed-connection error, and no earlier event closed it |
| GuardWakePacket.Wakes | greenwake-guard/service/wakepacket/service.go:109-113 | a run holds no more magic packets than events |
| GuardWakePacket.NonMagicIgnored | greenwake-guard/service/wakepacket/service.go:109-113 | only datagrams passing the magic-packet check reach the wake-lock service: a run without one leaves it exactly as it was |
| GuardWakePacket.EachPacketWakes | greenwake-guard/service/wakepacket/service.go:109-113 | with "wol" listed, each magic packet is one wake event: one more timeout armed per packet, and after at least one the lock is held under a temporary wake with "wol" recorded |
| GuardWakePacket.RunConsistent | greenwake-guard/service/wakepacket/service.go:71-115 | every state the loop reaches keeps the wake-lock service consistent |
| GuardWakePacket.Listener.constructor | greenwake-guard/service/wakepacket/service.go:21-30 | no socket yet and a live context |
| GuardWakePacket.Listener.Start | greenwake-guard/service/wakepacket/service.go:32-46 | the socket is open exactly when listening succeeded |
| GuardWakePacket.Listener.Stop | greenwake-guard/service/wakepacket/service.go:48-59 | afterwards the context is cancelled and the connection is gone, so a second Stop finds nothing to close |
| GuardWakePacket.Listener.Listen | greenwake-guard/service/wakepacket/service.go:61-116 | a cancelled or unconnected listener changes nothing; otherwise every event before the first closed-connection error is delivered in order |
| AwakeWakePacket.PacketEffect | awake/service/wakepacket/service.go:84-91 | a magic packet under wol_wake switches to permanent and takes the lock; under any other strategy the service is untouched |
| AwakeWakePacket.DatagramResetsClock | awake/service/wakepacket/service.go:81-82 | every datagram read, wake packet or not, restarts the silence clock |
| AwakeWakePacket.TimeoutChangesNothing | awake/service/wakepacket/service.go:66-78 | the timeout branch asks for wol_wake while already under wol_wake, a no-op, so a read timeout, like any other read error, changes nothing |
| AwakeWakePacket.NonMagicIgnored | awake/service/wakepacket/service.go:59-93 | a run without a magic packet leaves the service exactly as it was |
| AwakeWakePacket.RunConsistent | awake/service/wakepacket/service.go:59-93 | the loop keeps the wake-lock service's invariant |
| AwakeWakePacket.Listener.constructor | awake/service/wakepacket/service.go:21-30 | no socket yet and a live context |
| AwakeWakePacket.Listener.Start | awake/service/wakepacket/service.go:32-46 | the socket is open exactly when listening succeeded |
| AwakeWakePacket.Listener.Stop | awake/service/wakepacket/service.go:48-53 | afterwards the context is cancelled and no socket is left open |
| AwakeWakePacket.Listener.Listen | awake/service/wakepacket/service.go:55-94 | a cancelled listener changes nothing; otherwise the service and lastPacketTime are those of the run over the events |
| GuardConfig.ValidEventsPieces | greenwake-guard/config/config.go:42-47 | an empty setting gives ["wol", "device"]; otherwise the untrimmed comma-separated pieces, which joined with "," give the setting back, one more than the commas |
| GuardConfig.IsEventTypeValid | greenwake-guard/config/config.go:182-190 | true exactly when the type is among the valid events |
| GuardConfig.ApplyDefaults | greenwake-guard/config/config.go:136-159 | the defaulting block yields the defaulted configuration, with nothing left to default |
| GuardConfig.DefaultedFields | greenwake-guard/config/config.go:136-159 | defaulting replaces exactly the empty or zero fields (negative numbers kept), keeps every other field, and leaves a configuration unchanged exactly when nothing was missing |
| GuardConfig.DefaultedIdempotent | greenwake-guard/config/config.go:136-159 | defaulting twice is defaulting once |
| GuardConfig.FallbackIsDefaults | greenwake-guard/config/config.go:80-91 | the built-in fallback is what defaulting makes of an all-empty file |
| GuardConfig.LoadConfig | greenwake-guard/config/config.go:50-162 | every loaded configuration is complete; without file or example the fallback is written and returned; a failed write is an error; an existing file that parses is returned defaulted |
| GuardConfig.ParseAndDefault | greenwake-guard/config/config.go:124-161 | whatever is returned is complete |
| AwakeWolConfig.GetValidEvents | awake/internal/config/config.go:30-40 | an empty setting gives wol, keyboard and mouse; otherwise one element per comma-separated piece, in order, each the trimmed piece, with no surrounding white space |
| AwakeWolConfig.DefaultsTrimmed | awake/internal/config/config.go:31-33 | the default events are trimmed and hold no comma |
| BridgeConfig.ApplyDefaults | greenwake-bridge/internal/config/config.go:132-153 | the defaulting block, hosts in place and in order, yields the defaulted configuration |
| BridgeConfig.DefaultedFields | greenwake-bridge/internal/config/config.go:132-153 | log level, port and refresh interval default to "info", "8055" and 30, and each host's zero timeout, retry count and interval to 10, 1 and 5; non-zero values are kept; host count, order, identity and every forwarding rule are unchanged |
| BridgeConfig.DefaultedFixpoint | greenwake-bridge/internal/config/config.go:132-153 | a configuration is left unchanged exactly when nothing is missing |
| BridgeConfig.DefaultedIdempotent | greenwake-bridge/internal/config/config.go:132-153 | defaulting twice is defaulting once |
| BridgeConfig.FallbackComplete | greenwake-bridge/internal/config/config.go:77-93 | the fallback has no hosts and no forwarding rules, and defaulting leaves it unchanged |
| BridgeConfig.Load | greenwake-bridge/internal/config/config.go:50-156 | every loaded configuration is complete; without file or example the fallback is returned exactly when it could be written; a failed example copy is an error; otherwise the parsed file, defaulted |
| BridgeConfig.Parsed | greenwake-bridge/internal/config/config.go:122-155 | succeeds exactly when the text parses, with the defaulted configuration |
| AwakeTray.ContainsString | awake/service/tray/tray.go:512-519 | true exactly when some element equals the item |
| AwakeTray.RemoveString | awake/service/tray/tray.go:521-529 | the elements other than the item, in their original order |
| AwakeTray.RemovedProperties | awake/service/tray/tray.go:521-529 | every occurrence is removed, every other element kept with its multiplicity, the length shrinks by the number of occurrences, and a list without the item comes back unchanged |
| AwakeTray.ToggleTwice | awake/service/tray/tray.go:179-186 | a toggle flips membership, and toggling an absent item twice gives the list back |
| AwakeTray.TimeMenuMarks | awake/service/tray/tray.go:68-104 | outside timed nothing is checked; under timed a preset is checked exactly when the duration equals it, and the custom item's two marks (createMenu counts 15 minutes as a preset, updateModeStatus does not) disagree exactly for a 15-minute wake |
| AwakeTray.SavedEventsReload | awake/service/tray/tray.go:445-453 | the saved wake sources read back as the service's list when it has no commas inside and is not empty, and as the built-in defaults when its join is empty |
| AwakeTray.TrayService.constructor | awake/service/tray/tray.go:38-60 | no configuration, no menu, nothing shown yet |
| AwakeTray.TrayService.CreateMenu | awake/service/tray/tray.go:61-298 | a menu exists afterwards and the remaining time shown is the service's formatted remaining time; configuration and mode flags are untouched |
| AwakeTray.TrayService.Start | awake/service/tray/tray.go:300-334 | nothing without the translations; otherwise a desktop application gets the tray set up with a fresh menu |
| AwakeTray.TrayService.ToggleWakeSource | awake/service/tray/tray.go:179-186 | the service's event list becomes the toggled list; through the update callback the menu is rebuilt with the service's remaining time when the tray is set up; through the save callback the tray's configuration is rewritten from the new service state |
| AwakeTray.TrayService.SaveConfig | awake/service/tray/tray.go:438-473 | without a configuration it fails and changes nothing; otherwise strategy, sleep mode, the duration (only under timed), the ","-joined events and the timeout are written back, and it fails exactly when the write fails |
| AwakeTray.TrayService.UpdateMenuItemStates | awake/service/tray/tray.go:494-509 | nothing without a menu; otherwise the strategy is recorded, the mode item checked if there is one, and a positive duration shown as the remaining time |
| GuardDeviceMonitor.HasUserActivity | greenwake-guard/service/wakeevent/device_monitor_darwin.go:88-100 | true exactly when some line of the output mentions UserIsActive |
| GuardDeviceMonitor.Monitor.constructor | greenwake-guard/service/wakeevent/device_monitor_darwin.go:34-39 | not monitoring, no configuration, an open done channel, nothing started |
| GuardDeviceMonitor.Monitor.Start | greenwake-guard/service/wakeevent/device_monitor_darwin.go:42-47 | monitoring on and one more loop started; nothing else changes |
| GuardDeviceMonitor.Monitor.Stop | greenwake-guard/service/wakeevent/device_monitor_darwin.go:103-106 | done is closed; closing it a second time panics |
| GuardDeviceMonitor.Monitor.UpdateConfig | greenwake-guard/service/wakeevent/device_monitor_darwin.go:109-128 | the configuration is stored; monitoring ends up on exactly when "device" is a valid source; a loop is started only when it was off, and done is closed and replaced only when it was on and still open (after Stop the close panics and done stays closed), so repeating a call starts and stops nothing |
| GuardDeviceMonitor.Monitor.MonitorStep | greenwake-guard/service/wakeevent/device_monitor_darwin.go:55-84 | the loop ends once monitoring is off or done is closed; otherwise a successful check whose output mentions the marker hands exactly one device event to the handler |
| AwakeDeviceMonitor.ParseTimestamp | awake/service/wakeevent/device_monitor_darwin.go:128-137 | a line without a space is rejected; otherwise the text parsed is the first two space-separated parts joined by one space |
| AwakeDeviceMonitor.DateTextShape | awake/service/wakeevent/device_monitor_darwin.go:130-132 | that text is a prefix of the line holding exactly one space, ending at the second space or the end of the line |
| AwakeDeviceMonitor.HasRecentActivity | awake/service/wakeevent/device_monitor_darwin.go:85-125 | true exactly when one of the first thousand lines mentions UserIsActive and carries a time that parses and is after the last check |
| AwakeDeviceMonitor.Monitor.constructor | awake/service/wakeevent/device_monitor_darwin.go:43-44 | no activity and no check yet, no events |
| AwakeDeviceMonitor.Monitor.Check | awake/service/wakeevent/device_monitor_darwin.go:50-79 | a failed command changes nothing; otherwise an event is raised exactly when there is recent activity and at least five seconds have passed since the previous one, and the check time advances; raised events stay at least five seconds apart |
| UserAgent.Platform | wol/web/src/utils/userAgent.ts:7-21 | always one of the seven platform names; any header naming Windows is Windows; Unknown exactly when no platform marker occurs; Linux only without the Windows and Macintosh markers |
| UserAgent.Browser | wol/web/src/utils/userAgent.ts:23-36 | always one of the six browser names; the Edge marker wins over all, Firefox over Chrome, Chrome over Safari and Opera; Safari and Unknown are characterised exactly |
| UserAgent.ParseUserAgent | wol/web/src/utils/userAgent.ts:6-39 | both answers come from the fixed sets of names |
| DashboardApi.ReadSettings | wol/web/src/services/index.ts:55-61 | a missing or empty entry reads as the empty object, text that is not JSON reads as the empty object, and any JSON text, object or not, as the value it parses to |
| DashboardApi.KeepAwakeStore.constructor | wol/web/src/services/index.ts:55-57 | local storage starts without the entry |
| DashboardApi.KeepAwakeStore.GetKeepAwakeSettings | wol/web/src/services/index.ts:55-61 | the value read from the stored entry: the empty object when it is not JSON, null when it is the JSON null |
| DashboardApi.KeepAwakeStore.SetLocalKeepAwake | wol/web/src/services/index.ts:63-67 | on stored object settings, afterwards that host has the new flag and every other host its old flag; stored null or another primitive makes it throw with nothing written; a stored array keeps the same value |
| DashboardApi.SetThenGet | wol/web/src/services/index.ts:55-67 | on object settings, setting a flag then reading the settings back returns that flag for the host and the previous flags for all others |
| DashboardApi.StatusUrl | wol/web/src/services/index.ts:39-42 | the URL starts with the host's status path and carries the keepAwake query exactly when keepAwake is set |
| Dashboard.Tick | wol/web/src/pages/RemoteControl.tsx:114-133 | the countdowns after one second and the hosts to fetch again are those of the tick function; the previous map is kept when no countdown is running |
| Dashboard.TickedKeys | wol/web/src/pages/RemoteControl.tsx:116-133 | a tick neither adds nor removes a host's countdown |
| Dashboard.TickedUntouched | wol/web/src/pages/RemoteControl.tsx:116-133 | an unlisted host, or one whose countdown is missing or not positive, keeps its countdown |
| Dashboard.TickedInRange | wol/web/src/pages/RemoteControl.tsx:116-133 | countdowns between 1 and 30 stay between 1 and 30 |
| Dashboard.TickedListedOnce | wol/web/src/pages/RemoteControl.tsx:116-133 | a listed host's positive countdown goes down by one, or restarts at 30 when it was 1, and the host is fetched exactly then |
| Dashboard.ExpiredOnlyListed | wol/web/src/pages/RemoteControl.tsx:116-133 | only listed hosts are fetched |
| Dashboard.Compare | wol/web/src/pages/RemoteControl.tsx:345-359 | online hosts order before offline ones, a missing status counts as offline, and hosts of equal state order by name |
| Dashboard.OnlineFirst | wol/web/src/pages/RemoteControl.tsx:345-364 | in a list ordered by the comparator every online host precedes every offline one |
| Dashboard.TimeAgoReads | wol/web/src/pages/RemoteControl.tsx:25-35 | under a minute the text gives the whole seconds elapsed, from a minute on the whole minutes |
| Dashboard.PortsText | wol/web/src/pages/RemoteControl.tsx:249-256 | up to three ports are all shown; more show the first two and then the total count |
| Dashboard.JoinContains | wol/web/src/pages/RemoteControl.tsx:250-254 | every port occurs in the joined text |
| Dashboard.Fetched | wol/web/src/pages/RemoteControl.tsx:47-75 | each reply that arrived is stored and a null list becomes empty; the countdown restarts only when all three requests succeeded; the loading and refreshing flags are cleared; other hosts are untouched |
| Dashboard.Unchecked | wol/web/src/pages/RemoteControl.tsx:140-150 | only that host's keepAwake becomes false, and a host without a status reads as offline |
| ForwardTypes.LastOf | wol/internal/service/forward.go:38 | the last position of the character, or -1 when it does not occur |
| ForwardTypes.ChannelIdRoundTrip | wol/internal/service/forward.go:38 | a channel ID reads back as the rule it was made from, whatever the host name holds |
| ForwardTypes.ChannelIdInjective | wol/internal/service/forward.go:36-44 | distinct rules get distinct channel IDs |
| ForwardTypes.StoreClient | wol/internal/service/forward.go:131-132 | storing a record keeps IDs unique, replaces the record with the same ID and keeps every other record |
| ForwardTypes.Touched | wol/internal/service/forward.go:163-172 | the updater changes only the time of the record with that ID |
| ForwardTypes.TouchedSurvives | wol/internal/service/forward.go:54-74 | a record touched at time t survives any clean at most 40 seconds after t |
| ForwardTypes.DeleteClient | wol/internal/service/forward.go:149-152 | exactly the records with another ID remain, and IDs stay unique |
| ForwardTypes.Fresh | wol/internal/service/forward.go:59-69 | the kept records are exactly those whose time does not parse or is at most 40 seconds old |
| ForwardTypes.CleanClients | wol/internal/service/forward.go:54-74 | every channel loses exactly its expired records; no channel is added or dropped |
| ForwardTypes.FreshUnique | wol/internal/service/forward.go:54-74 | cleaning keeps client IDs unique |
| ForwardTypes.FreshIdempotent | wol/internal/service/forward.go:54-74 | a second clean at the same time changes nothing |
| ForwardTypes.FreshNoneExpired | wol/internal/service/forward.go:54-74 | a clean with no expired record changes nothing |
| ForwardTypes.WaitOnline | wol/internal/service/forward.go:239-253 | polling stops at the first online answer or once more than the timeout has passed, never before, and polls at most timeout over 100 ms plus two times |
| WolForward.ChannelsKeys | wol/internal/service/forward.go:36-46 | exactly the service ports of the rules get a channel |
| WolForward.ChannelsLast | wol/internal/service/forward.go:36-46 | a port's channel comes from the last rule with that port and starts inactive with that rule's ID |
| WolForward.IndexOfIp | wol/internal/service/forward.go:330 | the position of the aggregate for an IP, or -1 when there is none |
| WolForward.AggregateClients | wol/internal/service/forward.go:324-354 | the loop computes the aggregation function |
| WolForward.AggregateIps | wol/internal/service/forward.go:324-354 | no two aggregates share an IP and every client's IP has one |
| WolForward.AggregateSummarises | wol/internal/service/forward.go:324-354 | each aggregate holds every port of its IP, the status of the first client seen with it and the latest time among them |
| WolForward.AggregateTotal | wol/internal/service/forward.go:324-354 | every client contributes exactly one port |
| WolForward.RetryCount | wol/internal/service/forward.go:218-222 | the configured retry count when positive, else 1 |
| WolForward.WakeTimeout | wol/internal/service/forward.go:233-237 | the configured wake timeout when positive, else 10 |
| WolForward.WakeInterval | wol/internal/service/forward.go:179-183 | the configured wake interval when positive, else 120 |
| WolForward.WakeOffline | wol/internal/service/forward.go:209-261 | an unknown host ends the connection with no packet; an online host is dialled with no packet; otherwise packets are sent until a wait sees the host, at most retry count plus one, and the connection is dropped after the last failed wait |
| WolForward.Refreshed | wol/internal/service/forward.go:360-366 | refreshing keeps the channel's ID, host and port |
| WolForward.RefreshHost | wol/internal/service/forward.go:356-372 | the channels of the host are refreshed and returned once each; the others are left alone |
| WolForward.ListChannels | wol/internal/service/forward.go:300-309 | every stored channel is returned once |
| WolForward.ForwardService.constructor | wol/internal/service/forward.go:27-52 | one inactive channel per rule, no client records, no open connection |
| WolForward.ForwardService.ConnectionStart | wol/internal/service/forward.go:105-132 | the global count goes up and is copied into the channel, which becomes active, and the client's record is stored |
| WolForward.ForwardService.Touch | wol/internal/service/forward.go:159-177 | only the time of the connection's record changes, while it is stored |
| WolForward.ForwardService.ConnectionEnd | wol/internal/service/forward.go:134-153 | the global count goes down and is copied into the channel, which becomes inactive only when no connection is open anywhere, and the record is removed |
| WolForward.ForwardService.GetHostChannels | wol/internal/service/forward.go:356-372 | exactly the host's channels are returned, refreshed in place with their aggregates and the global count |
| WolForward.ForwardService.GetChannels | wol/internal/service/forward.go:300-309 | every channel once, nothing changes |
| WolForward.ForwardService.Clean | wol/internal/service/forward.go:54-74 | each channel's records lose exactly the expired ones; channels and the count are unchanged |
| BridgeForward.ChannelsKeys | internal/service/forward.go:35-45 | exactly the service ports of the rules get a channel |
| BridgeForward.ChannelsLast | internal/service/forward.go:35-45 | a port's channel comes from the last rule with that port and starts inactive with that rule's ID |
| BridgeForward.Refreshed | internal/service/forward.go:268-280 | refreshing keeps the channel's ID, host and port |
| BridgeForward.RefreshHost | internal/service/forward.go:264-286 | the channels of the host take their current records and are returned once each; the others are left alone |
| BridgeForward.ListChannels | internal/service/forward.go:240-249 | every stored channel is returned once |
| BridgeForward.EndConn | internal/service/forward.go:222-231 | a count still positive after the decrement is stored back, otherwise the port's entry is deleted; other ports keep theirs |
| BridgeForward.ActiveConnStaysEmpty | internal/service/forward.go:222-231 | nothing adds to the connection counts, so they stay empty whatever connections end |
| BridgeForward.EndCountAlwaysZero | internal/service/forward.go:222-237 | the count computed at the end of every forwarded connection is 0, so every such end marks the channel inactive |
| BridgeForward.PrepareDial | internal/service/forward.go:155-185 | an unknown host ends the connection; an online host is dialled with no packet; otherwise one packet is sent and the host is polled for up to ten seconds, and it is dialled exactly when a poll saw it online |
| BridgeForward.ForwardService.constructor | internal/service/forward.go:26-51 | one inactive channel per rule, no client records, no connection counts |
| BridgeForward.ForwardService.Open | internal/service/forward.go:104-122 | the client's record is stored under the channel's ID and the channel itself is not touched |
| BridgeForward.ForwardService.Touch | internal/service/forward.go:135-153 | only the time of the connection's record changes, while it is stored |
| BridgeForward.ForwardService.Close | internal/service/forward.go:222-237 | a forwarded connection marks its channel inactive; any end deletes the client's record |
| BridgeForward.ForwardService.GetHostChannels | internal/service/forward.go:264-286 | exactly the host's channels are returned, carrying their current records, and the stored channels see the same update |
| BridgeForward.ForwardService.GetChannels | internal/service/forward.go:240-249 | every channel once, nothing changes |
| BridgeForward.ForwardService.Clean | internal/service/forward.go:53-73 | each channel's records lose exactly the expired ones; the channels are unchanged |
| ClientRegistry.Cleaned | internal/service/client.go:26-44 | the entries kept are exactly those whose time does not parse or is at most 40 seconds old, unchanged |
| ClientRegistry.CleanKeepsListing | internal/service/client.go:26-44 | a clean at some time leaves the host listing at that same time unchanged |
| ClientRegistry.CleanIdempotent | internal/service/client.go:26-44 | cleaning again at the same time deletes nothing more |
| ClientRegistry.ClientService.constructor | internal/service/client.go:15-24 | the registry starts empty |
| ClientRegistry.ClientService.UpdateClient | internal/service/client.go:53-62 | only the entry for that ID changes, to a record stamped with the current time |
| ClientRegistry.ClientService.GetHostClients | internal/service/client.go:64-80 | exactly the host's entries seen in the last 40 seconds, each once |
| ClientRegistry.ClientService.Clean | internal/service/client.go:26-44 | exactly the stale entries are deleted |
| PCService.HostsByNameLast | internal/service/pc.go:30-37 | every configured name is known, under the last host configured with that name |
| PCService.ResendWindow | internal/service/pc.go:72-83 | after a wake at t, a host kept awake gets no packet for five minutes and one at every later request; a host not kept awake never gets one |
| PCService.Service.constructor | internal/service/pc.go:23-40 | the configured hosts by name; nothing reported or woken yet |
| PCService.Service.GetHostStatus | internal/service/pc.go:50-89 | an unknown host is an error and stores nothing; otherwise the status reports the probe's answer, echoes keepAwake, carries the last wake time when recorded, and is stored; a packet is dispatched exactly under the re-send rule |
| PCService.Service.RecordWake | internal/service/pc.go:91-133 | the wake time is recorded exactly when all 102 bytes were written |
| LegacyApp.StatusString | app.go:24-37 | 1, 2 and -1 are named online, processing and error, each exactly; every other code gets the empty name |
| LegacyApp.HostStatus | app.go:39-59 | telnet is tried exactly when ping succeeds; a probe error is an error status with its message; online exactly when both probes succeed, processing exactly when ping fails quietly or telnet answers no |
| LegacyApp.RefreshAnyCase | app.go:117 | a refresh parameter reading "true" in any letter case forces a resend |
| LegacyApp.CachedStatus | app.go:134-140 | 1 and -1 are reported as cached, every other code as 2 |
| LegacyApp.App.constructor | app.go:20-22 | the send time is the Unix epoch, the cached status -1 and the message empty |
| LegacyApp.App.WorkingHandler | app.go:113-141 | when more than a minute has passed or refresh is asked, the send time becomes now; a failed wake command answers with an error and keeps the cache, a successful one refreshes the cache from the host check; otherwise the cached message is marked with the time since the last send; the reply status is always one of the three names |
| ClashFilter.Contains | clash_config.go:75-82 | true exactly when the index occurs in the list |
| ClashFilter.Kept | clash_config.go:45-50 | filtering never lengthens the list |
| ClashFilter.KeptMembers | clash_config.go:35-50 | the kept entries are exactly the entries whose name does not match |
| ClashFilter.MatchIndices | clash_config.go:35-44 | the collected positions are exactly the matching ones, strictly increasing and in range |
| ClashFilter.KeptAppend | clash_config.go:45-50 | filtering keeps the order of the entries |
| ClashFilter.KeptLength | clash_config.go:35-50 | the new list is the old one less one entry per match |
| ClashFilter.KeptIdempotent | clash_config.go:35-50 | filtering a filtered list changes nothing |
| ClashFilter.FilterProxies | clash_config.go:34-53 | a list with an entry that is not a string panics, any other gives exactly the non-matching entries in order |
| ClashFilter.FilteredGroupsShape | clash_config.go:28-62 | every group keeps its place; groups that are not mappings or lack proxies are unchanged; a mapping keeps its other keys |
| ClashFilter.FilterGroups | clash_config.go:26-62 | the loop over the groups computes the group filter, a panic in any group being a panic of the whole |
| ClashFilter.FilteredGroupsNone | clash_config.go:28-62 | a panic in some group is a panic of the whole loop |
| ClashFilter.ClashHandler | clash_config.go:9-73 | an undecodable document gives the empty string; a list of proxy groups is filtered and re-encoded, or panics; any other value re-encodes the document unchanged |

## Left out

- Concurrency: goroutines, mutexes, channels and `select` are not modelled. Each timer callback, ticker tick and goroutine step is a separate method (the `Fire*`, `Touch`, `Clean` and `Check` steps), run one at a time. Interleavings and data races between them are not captured.
- Sockets and the network: UDP reads, TCP listen, accept and dial, `io.Copy` and `CloseWrite` are not modelled. A datagram, a read error or timeout, a connection's start and end, and the result of a dial are inputs.
- External commands and probes: the outputs of `pmset`, `systemd-inhibit`, `loginctl`, `powercfg`, `gsettings`, `xset` and `pmset -g log` are input strings. The ping, telnet and TCP reachability probes are boolean or error inputs. Whether the desktop environment is present is an input too.
- Library calls: YAML, JSON, regular expressions, RFC 3339 parsing and formatting, `time.ParseInLocation`, `time.Duration.String`, `time.ParseDuration` and `localeCompare` are function-typed parameters. Their own behaviour is not modelled.
- Clocks: every time is an integer (nanoseconds in Go, milliseconds in the dashboard) passed in by the caller. A zero `time.Time` is the integer 0.
- The operating-system sleep assertion is a ghost boolean. The calls that take and release it, and their failures, are not modelled.
- Map order: Go map and `sync.Map` iteration order is unspecified. The model visits channels in an arbitrary order and client records in a fixed sequence order. The contracts promise only membership and uniqueness where Go promises no order.
- WolForward.AggregateClients: the aggregates come out in the order their IPs were first seen. Go builds them in a map and copies them out in random order, so only the set of aggregates matches the source.
- The `bufio.Scanner` 64 KB limit on a line is not modelled. Every line is read whole.
- The tray's menu widgets, icons, translations and the duration parsing of the custom-time dialog are not modelled. Only the list helpers, the checked marks, the remaining time and menu presence that `createMenu` and `Start` record, `SaveConfig` and `updateMenuItemStates` are.
- The wol server's keep-awake ticker goroutine in `handleConnection` is not modelled as a loop. Only its period (`WolForward.WakeInterval`) is.
- `GetHosts` of the PC service, `GetPowerStateDescription`, `GetCurrentProcessState`, `Close` of the forwarding services and the server start-up code are plain getters or shutdown code, and are not modelled.
- HandleWakeEvent, SetStrategy, SetSleepMode, InitializeState, SetProgramSleepDelay, SetTimeoutSecs and SetValidEvents of `GuardWakeLock.Service`: the update, strategy-change and save-config callbacks they call synchronously at the end are not modelled, so their contracts cover the service state only and not the calls back into the tray (the menu rebuild and `SaveConfig`). The one place the tray relies on them, toggling a wake source, models both the menu rebuild and the save in `AwakeTray.TrayService.ToggleWakeSource`.
- FormatRemainingTime (`AwakeWakeLock.Service`) and SetStrategy (`GuardWakeLock.Service`): Go converts the duration through float64 (`int(d.Hours())`, `int(d.Minutes())`, `int(d.Seconds())`), and the model uses exact integer division instead. The float64 sum can round up to the next whole unit: from 4096 hours on for the hours field (4097 h less 1 ns shows 4097h in Go, 4096h here) and from 2^24 seconds on for the remaining seconds of a timed strategy. Below those bounds the two agree.
- SetLocalKeepAwake: on a stored JSON array the flag becomes a property of the array, which `JSON.stringify` drops unless the host name is an array index. The model leaves the stored entry as it was, since the same array is written back (its text may be reformatted), so a host named like an index ("0", "1", ...) is not modelled.
- Logging output is not modelled. Only the level gate that decides whether a message is written is.
- Rendering of the dashboard: React components, tables, toasts and the mock request handlers are not modelled. Only the state updates and the pure helpers are.
