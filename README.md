# Peristaltic and vacuum pump controller, modelled in Dafny

This is a model of the control core of an ESP32 firmware. The firmware drives two DC pumps through one dual H-bridge driver (a TB6612FNG, written 6612FNG in the source):

- The **peristaltic pump** sits on channel A. It has three states (stopped, forward, reverse) and takes a 10-bit duty.
- The **vacuum pump** sits on channel B. It runs forward only. It takes a speed in percent, which it caps at 80% before turning it into a duty. It also has a safety gate and an emergency stop.

Both pumps support timed runs. These stop themselves in `update()` once the duration, in whole seconds, has passed since `millis()` was read at the start. Both pumps write the same standby line (STBY).

A small HTTP surface controls the pumps:

- `POST /api/control` and `POST /api/vacuum` carry a JSON-like body. The firmware does not parse it as JSON: it searches for substrings with `indexOf`, cuts the number out with `substring` and reads it with `toInt`.
- `/api/status` returns a hand-built JSON text.

The model is split into these modules:

- `Ints` (ints.dfy): the C integer types `uint8_t`, `uint16_t` and `uint32_t`. It covers the narrowing conversions the firmware relies on (reduction modulo 2^8, 2^16 and 2^32) and its two-step clamp.
- `Timing` (timing.dfy): whole seconds elapsed and seconds remaining. The `unsigned long` subtraction `now - start` wraps modulo 2^32, so a run that spans the `millis()` rollover still measures correctly.
- `Hardware` (hardware.dfy): a `Board` class holding the driver's pin levels (AIN1/AIN2, BIN1/BIN2, STBY) and the two LEDC duties. Both pump objects hold a reference to the same board, so the shared STBY line is modelled as shared state.
- `Peristaltic` (pump.dfy): the `PeristalticPump` class. Its fields are the ones the C++ class updates in place. It has the motor primitives, `controlPump`, `update` and `getRemainingTime`.
- `Vacuum` (vacuum_pump.dfy): the `VacuumPump` class, plus the conversions `percentToDuty` and `dutyToPercent` and the driver primitives. It also has `controlVacuumPump` with its safety gate, `update`, `getRemainingTime` and `emergencyStop`.
- `ArduinoString` (arduino_string.dfy): the parts of Arduino's `String` class that the handlers rely on:
  - `indexOf`, as a first-occurrence search;
  - `toInt`, which behaves like `atol`: it skips leading white space, takes an optional sign and the digits that follow, and saturates to a 32-bit `long`;
  - `String(n)`, the decimal rendering.
- `WebServer` and `WebHandlers` (web_server.dfy):
  - the body parsers;
  - the `WebServerManager` class, with its two control handlers and the status JSON.
- `Scenarios` (scenarios.dfy): whole runs with concrete values, of the kind the main loop produces.

`millis()` becomes a parameter `now` of every operation that reads the clock. An HTTP request becomes the method and body parameters of a handler, and its reply becomes the handler's result (status code and JSON text). The getters of both classes are plain field reads. They are modelled as functions without contracts.

The safety gate `isSafeToRun()` always answers true. `controlVacuumPump` keeps the gate anyway, and its contract states both the blocked and the unblocked outcomes. The parse functions take the pump field they fall back to as a parameter; `WebServerManager` passes the live field. This matches the code. `handleVacuumControl` falls back to the **peristaltic** pump's `runDuration` when the body has no duration, because `parseDuration` reads `pump->getRunDuration()`.

## Model

| member | source | states |
|---|---|---|
| Ints.ToU8 | src/web_server.cpp:286 | the uint8_t conversion is the identity on 0..255 and otherwise differs from its input by a multiple of 256 |
| Ints.ToU16 | src/web_server.cpp:266 | the uint16_t conversion of toInt's long is the identity on 0..65535 and otherwise differs by a multiple of 65536 |
| Ints.ToU32 | src/web_server.cpp:304 | the uint32_t conversion is the identity on 0..2^32-1 and otherwise differs by a multiple of 2^32 |
| Ints.Clamp | src/web_server.cpp:267-268 | the two-step clamp lands in [lo, hi], keeps values inside it, and sends values below lo to lo and values above hi to hi |
| Timing.ElapsedSeconds | src/pump.cpp:163-164 | whole seconds since the start: r*1000 <= now-start < r*1000+1000, with the difference taken modulo 2^32 when the counter has wrapped |
| Timing.RemainingSeconds | src/pump.cpp:177 | the saturating difference is at most the duration; it is 0 exactly when the elapsed time has reached the duration, and otherwise remaining + elapsed == duration |
| Timing.ElapsedReached | src/pump.cpp:163-166 | d whole seconds have elapsed exactly when the wrapped millisecond difference has reached d * 1000 |
| Timing.ElapsedNonDecreasing | src/pump.cpp:164 | without a wrap, a later reading never gives fewer elapsed seconds |
| Timing.RemainingNonIncreasing | src/pump.cpp:176-177 | without a wrap, the remaining seconds never grow as time passes |
| Hardware.Board.constructor | src/pump.cpp:38-43 | the levels left behind by both begin() routines: all four direction pins low, both duties 0, STBY high |
| Peristaltic.PeristalticPump.constructor | src/pump.cpp:3-10 | a new pump is stopped, at speed 512, with duration 5, start time 0, no timed run and duty 0, and satisfies the class invariant |
| Peristaltic.PeristalticPump.MotorCoast | src/pump.cpp:68-76 | coast sets AIN1 and AIN2 low and duty 0, and leaves STBY alone |
| Peristaltic.PeristalticPump.MotorBrake | src/pump.cpp:78-86 | brake sets AIN1 and AIN2 high and duty 0 |
| Peristaltic.PeristalticPump.MotorForward | src/pump.cpp:88-101 | forward sets STBY high, AIN1 high, AIN2 low and writes the speed, unclamped, as the duty |
| Peristaltic.PeristalticPump.MotorReverse | src/pump.cpp:103-116 | reverse sets STBY high, AIN1 low, AIN2 high and writes the speed as the duty |
| Peristaltic.PeristalticPump.ControlPump | src/pump.cpp:118-158 | records state, speed and duration as given. Stop coasts, clears the timer and keeps the start time and STBY. Forward and reverse drive the matching pins at the speed, raise STBY, and start a timer at now exactly when the duration is nonzero. The class invariant is kept |
| Peristaltic.PeristalticPump.Update | src/pump.cpp:160-171 | a timed run whose whole elapsed seconds have reached its duration is stopped, with duration 0 and speed kept; in every other case nothing on the pump or the board changes; afterwards no expired run remains |
| Peristaltic.PeristalticPump.GetRemainingTime | src/pump.cpp:173-180 | at most the run duration; 0 exactly when no timed run is active or it has expired; otherwise remaining + elapsed == duration |
| Peristaltic.RemainingTimeNonIncreasing | src/pump.cpp:173-180 | between two readings without a wrap, the reported remaining time never grows |
| Peristaltic.PeristalticPump.TimedRunExpired | src/pump.cpp:162-166 | update() ends the run exactly when a timed run is active on a turning pump and the wrapped difference now - start has reached duration * 1000 ms |
| Vacuum.GetMaxDuty | include/vacuum_pump.h:37 | (1 << 10) - 1 is 1023 |
| Vacuum.PercentToDuty | src/vacuum_pump.cpp:12-15 | the duty never exceeds 1023 and is the rounded-down value of min(percent, 100) * 1023 / 100 |
| Vacuum.DutyToPercent | src/vacuum_pump.cpp:17-20 | the percent is at most 100 and is the rounded-down value of min(duty, 1023) * 100 / 1023 |
| Vacuum.PercentToDutyMonotone | src/vacuum_pump.cpp:12-15 | a larger percent never yields a smaller duty |
| Vacuum.PercentDutyRoundTrip | src/vacuum_pump.cpp:12-20 | for 0..100, percent to duty and back returns the percent or one less |
| Vacuum.SafeDutyValue | src/vacuum_pump.cpp:126-132 | the 80% ceiling corresponds to duty 818 |
| Vacuum.VacuumPump.constructor | src/vacuum_pump.cpp:3-10 | a new vacuum pump is stopped, at 100%, with duration 5, start time 0, no timed run and duty 0, and satisfies the class invariant |
| Vacuum.VacuumPump.IsSafeToRun | src/vacuum_pump.cpp:211-216 | the safety hook, as written, admits every command |
| Vacuum.VacuumPump.Blocks | src/vacuum_pump.cpp:152-155 | the gate can only drop a RUNNING command, never a stop; with the hook as written it drops nothing |
| Vacuum.VacuumPump.DisableDriver | src/vacuum_pump.cpp:61-66 | duty 0 and STBY low |
| Vacuum.VacuumPump.EnableDriver | src/vacuum_pump.cpp:68-72 | STBY high |
| Vacuum.VacuumPump.MotorCoast | src/vacuum_pump.cpp:95-105 | coast leaves BIN1 and BIN2 low, duty 0 and the driver in standby |
| Vacuum.VacuumPump.MotorBrake | src/vacuum_pump.cpp:107-122 | after the momentary full-duty brake the motor is coasted: pins low, duty 0, STBY low |
| Vacuum.VacuumPump.MotorForward | src/vacuum_pump.cpp:124-149 | drives BIN1 high and BIN2 low with STBY high at the duty of min(percent, 80), which never exceeds the duty of 80% |
| Vacuum.VacuumPump.ControlVacuumPump | src/vacuum_pump.cpp:151-180 | a command the safety gate blocks changes nothing. Otherwise state, percent and duration are recorded as given. Stop coasts and drops STBY. Run drives at the capped duty and starts a timer at now exactly when the duration is nonzero. The invariant, including the duty ceiling, is kept |
| Vacuum.VacuumPump.Update | src/vacuum_pump.cpp:182-193 | an expired timed run is stopped (coast, STBY low, duration 0, percent kept); otherwise nothing changes; afterwards no expired run remains |
| Vacuum.VacuumPump.TimedRunExpired | src/vacuum_pump.cpp:184-188 | update() ends the run exactly when a timed run is active on a running pump and the wrapped difference now - start has reached duration * 1000 ms |
| Vacuum.VacuumPump.GetRemainingTime | src/vacuum_pump.cpp:195-202 | at most the run duration; 0 exactly when no timed run is active or it has expired; otherwise remaining + elapsed == duration |
| Vacuum.VacuumPump.EmergencyStop | src/vacuum_pump.cpp:204-209 | duty 0, STBY low, stopped, timer cleared; percent, duration, start time and both direction pins are kept as they were |
| Vacuum.RemainingTimeNonIncreasing | src/vacuum_pump.cpp:195-202 | between two readings without a wrap, the reported remaining time never grows |
| ArduinoString.IndexOf | src/web_server.cpp:259-263 | the result is -1 or an index at or after `from` where the pattern occurs; -1 exactly when there is no occurrence from `from` on; otherwise no earlier occurrence exists |
| ArduinoString.FindChar | src/web_server.cpp:262-263 | the first position at or after `from` holding the character; -1 exactly when it does not occur there |
| ArduinoString.IndexOfChar | src/web_server.cpp:262-263 | indexOf of a one-character string is exactly that character search |
| ArduinoString.OccursAtSlice | src/web_server.cpp:259 | strstr's character-by-character match at k is exactly the text at k being the pattern |
| ArduinoString.FirstOccurrenceKept | src/web_server.cpp:259 | the first occurrence of a key stays first whatever text is appended after it |
| ArduinoString.LeadingDigits | src/web_server.cpp:266 | the digits toInt reads are all digits and are followed by a non-digit or the end |
| ArduinoString.LeadingDigitsIsPrefix | src/web_server.cpp:266 | those digits are a prefix of the text |
| ArduinoString.SkipSpaces | src/web_server.cpp:266 | the white space skipped is all C white space and the rest does not start with it |
| ArduinoString.SkipSpacesIsSuffix | src/web_server.cpp:266 | what remains after the white space is a suffix of the text |
| ArduinoString.SignStripped | src/web_server.cpp:266 | a leading '+' or '-' is always removed, and a text without one is left as it is |
| ArduinoString.ToInt | src/web_server.cpp:266 | the result lies in the 32-bit long range and is 0 when no digit follows the white space and sign |
| ArduinoString.DecimalString | src/web_server.cpp:339 | String(n) is a nonempty run of digits without a leading zero whose decimal value is n |
| ArduinoString.LeadingDigitsOfDigits | src/web_server.cpp:266 | toInt's digit scan reads all of a digit string and stops at the first non-digit after it |
| ArduinoString.ToIntOfDigits | src/web_server.cpp:266 | a digit string followed by a non-digit reads as its value, saturated at LONG_MAX |
| ArduinoString.ToIntOfNegatedDigits | src/web_server.cpp:304 | behind a minus sign the same digits read as the negated value |
| ArduinoString.ToIntOfDecimalString | src/web_server.cpp:266 | toInt(String(n) + rest) == n for every n up to LONG_MAX when rest does not start with a digit |
| ArduinoString.ToIntOfNegativeDecimalString | src/web_server.cpp:304 | toInt("-" + String(n) + rest) == -n down to LONG_MIN |
| ArduinoString.SignedDecimalString | src/web_server.cpp:266 | String(v) of a long is nonempty, made of digits and a minus sign, and starts with '-' exactly when v is negative |
| ArduinoString.ToIntOfSignedDecimalString | src/web_server.cpp:266 | toInt(String(v) + rest) == v for every long v, when rest does not start with a digit |
| ArduinoString.ToIntSkipsSpace | src/web_server.cpp:266 | leading white space does not change the value read |
| WebServer.FieldText | src/web_server.cpp:259-265 | absent when the key is absent; otherwise the text starts right after the first occurrence of the key, is nonempty and has no ','; it is followed either by ',' or by '}', and in the latter case it has no '}' and no ',' follows the key at all |
| WebServer.FieldTextMissing | src/web_server.cpp:259-265 | with the key found, the field is absent exactly when nothing follows the key, a ',' follows it at once, or no ',' follows and the next character is '}' or no '}' follows either |
| WebServer.ParseAction | src/web_server.cpp:236-245 | forward if its action literal occurs; otherwise reverse if its literal occurs; otherwise stop if its literal occurs; otherwise "" (each case as an if-and-only-if) |
| WebServer.ParseVacuumAction | src/web_server.cpp:247-256 | start, then stop, then emergency, by the same first-match priority, each as an if-and-only-if; otherwise "" |
| WebServer.ParseSpeed | src/web_server.cpp:258-274 | without a speed field the current speed is returned; with one the result lies in [100, 1023] |
| WebServer.ParseVacuumSpeed | src/web_server.cpp:276-294 | without a speed field the current percent is returned; with one the result lies in [10, 100] |
| WebServer.ParseDuration | src/web_server.cpp:296-312 | without a duration field the peristaltic pump's duration is returned; with one the result lies in [1, 300] |
| WebServer.FieldTextAt | src/web_server.cpp:259-265 | when the key is found and the characters after it up to a ',' (or up to a '}' with no later ',') contain neither terminator, those characters are the field text |
| WebServer.FieldTextOfNumber | src/web_server.cpp:258-265 | a nonempty text free of ',' and '}', written after the first occurrence of its key and followed by ',' (or by '}' with no later ',') is extracted as written |
| WebServer.ClientNumberText | src/web_server.cpp:258-266 | String(v) of a long holds neither terminator and toInt reads it back as v |
| WebServer.ParseSpeedOfClientField | src/web_server.cpp:258-274 | a speed v sent by a client, negative ones included, reaches the pump as clamp(v mod 65536, 100, 1023), so -65000 gives 536 |
| WebServer.ParseDurationOfClientField | src/web_server.cpp:296-312 | a duration v sent by a client becomes 300 when v is negative (the uint32_t wrap) and clamp(v, 1, 300) otherwise, so 0 becomes a one-second timed run |
| WebServer.DurationNarrowing | src/web_server.cpp:304-306 | the uint32_t narrowing followed by the clamp sends every negative long to 300 and is the plain clamp otherwise |
| WebServer.ParseVacuumSpeedOfClientField | src/web_server.cpp:276-294 | a speed v sent by a client becomes clamp(uint8_t((v mod 65536) * 100 / 1023), 10, 100) for every long v; 0..2618 gives clamp(v*100/1023, 10, 100), 1023..2618 gives 100, and 2660 wraps to 10 |
| WebServer.VacuumPercentNarrowing | src/web_server.cpp:284-286 | the uint8_t narrowing of raw*100/1023 is exact up to 2618, at least 100 from 1023 to 2618, and 4 at 2660 |
| WebHandlers.JsonReply | src/web_server.cpp:341 | every reply opens with the success flag, whose literal starts with 't' exactly on success, and ends with the message closed by `"}` |
| WebHandlers.DurationSuffix | src/web_server.cpp:338-340 | the suffix is empty exactly when the duration is 0 |
| WebHandlers.DurationSuffixReadsBack | src/web_server.cpp:338-340 | for a nonzero duration the suffix is " for " followed by text that toInt reads back as the duration |
| WebHandlers.SpeedPercent | src/web_server.cpp:376 | speedPercent is speed*100/255 rounded down |
| WebHandlers.SpeedPercentRange | src/web_server.cpp:376 | speedPercent exceeds 100 exactly for speeds from 258 on; the default 512 reports 200, full duty 401, and a vacuum percent of 100 reports 39 |
| WebHandlers.PumpStateName | src/web_server.cpp:364-374 | each peristaltic state has its own name among stopped, forward and reverse |
| WebHandlers.VacuumStateName | src/web_server.cpp:392-399 | the vacuum states are named stopped and running |
| WebHandlers.ReportJson | src/web_server.cpp:362-412 | a pump entry opens with its state name and is closed by '}' |
| WebHandlers.ReportJsonReadsBack | src/web_server.cpp:375-386 | in an entry whose state name has no ',', the first `,"speed": `, `,"speedPercent": ` and `,"remainingTime": ` are each followed by the decimal number of the report's speed, speedPercent and remaining time, and the first `,"isTimedRun": ` by `true}` exactly when the report is of a timed run (`false}` otherwise) |
| WebHandlers.WebServerManager.constructor | src/web_server.cpp:3-6 | the manager keeps the two pumps it is given and, given pumps that keep their invariants on one board, satisfies its own invariant |
| WebHandlers.WebServerManager.PeristalticReport | src/web_server.cpp:362-387 | reports a timed run only when one is active on a turning pump, with remaining time getRemainingTime(now), 0 exactly when expired; 0 otherwise; speed and state name are the pump's and speedPercent is SpeedPercent(speed), so the default speed reports 200 |
| WebHandlers.WebServerManager.VacuumReport | src/web_server.cpp:390-412 | the same rule for the vacuum pump, reporting its percent as the speed and SpeedPercent(percent) as speedPercent |
| WebHandlers.WebServerManager.StatusJson | src/web_server.cpp:357-417 | the status text always begins with the success flag set to true |
| WebHandlers.WebServerManager.HandleControl | src/web_server.cpp:314-355 | non-POST gives 405 and an unknown action 400, both leaving pump and board unchanged; stop coasts at the parsed speed with duration 0, keeping STBY and the start time; forward and reverse drive the matching AIN pins at the parsed speed and duration, the timer started at now exactly when the duration is nonzero, with the matching reply; both pumps' invariants are kept |
| WebHandlers.WebServerManager.HandleVacuumControl | src/web_server.cpp:423-459 | non-POST gives 405 and an unknown action 400, with nothing changed; start runs at the parsed percent and duration with BIN1 high, BIN2 low, the capped duty and the timer started at now exactly when the duration is nonzero; stop coasts with both pins low, duty 0 and STBY low, keeping the start time; emergency keeps percent, duration, start time and both pins |
| Scenarios.TimedForwardRun | src/pump.cpp:160-171 | a five-second forward run at full duty reports 5 s left at its start, still turns at 4999 ms and is stopped with duty 0 at 5000 ms |
| Scenarios.TimedRunAcrossWrap | src/pump.cpp:163-166 | a run started 1000 ms before millis() wraps still lasts exactly five seconds |
| Scenarios.VacuumSpeedCapped | src/vacuum_pump.cpp:124-139 | a 95% command is stored as 95% but drives duty 818, the 80% ceiling |
| Scenarios.EmergencyDuringTimedRun | src/vacuum_pump.cpp:204-209 | an emergency stop ends a timed run at once (remaining 0, duty 0) while the duration stays on record |
| Scenarios.SharedStandby | include/vacuum_pump.h:16 | stopping the vacuum pump drops the shared STBY while the peristaltic pump still reports forward at duty 512; its next command raises STBY again |

## Left out

- `begin()` of both pumps: pin modes, the LEDC setup and the delays are hardware configuration. Only the levels they leave behind are modelled, as the `Board` constructor.
- Serial logging, including `logPinStates`, and every `delay`/`delayMicroseconds`: output and timing with no effect on state. `MotorBrake`'s 50 ms full-duty phase is therefore visible only through the coasted state it ends in.
- The hardware saturation of an LEDC duty above 1023: the peristaltic pump writes its speed unclamped, and the model records that raw value in `Board.dutyA`.
- `handleRoot`, `handleTest` and `generateHTML`: static HTML pages.
- `WebServerManager::begin`, `handleClient` and `printServerInfo`: route registration and the server loop. The routes accept only POST for the two control endpoints, so the handlers' own 405 branch is reached only through the handler itself.
- `handleStatus`: it only sends `generateStatusJSON()`, which is modelled as `StatusJson`.
- WiFi (wifi_manager.cpp) and the main loop (main.cpp) are not part of this model. The loop's calls to `update()` are modelled per call.
- ArduinoString.IndexOf: Arduino's `indexOf` on a `String` holding a NUL byte stops at that byte (it uses `strstr`). The model searches the whole text.
- ArduinoString.ToInt: a result outside the `long` range saturates as `strtol` does, and `errno` is not modelled.
- WebHandlers.WebServerManager.StatusJson: its contract states only the opening of the text, not where the two entries sit in it. Each entry's text is stated by `ReportJson` and `ReportJsonReadsBack`, and its values by `PeristalticReport` and `VacuumReport`.
- The getters (`getCurrentState`, `getCurrentSpeed`, `getRunDuration`, `getIsTimedRun`, `getPumpStartTime`) are plain field reads without contracts.
