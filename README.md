# Wheel telemetry core (Monocle) in Dafny

A model of the electric-unicycle telemetry handling in `src/wheel_io.cpp`: the
global record `currEucState` (`struct WheelData`), the notification decoder that
fills it from the wheel's two BLE message layouts, the duty-cycle peak tracker,
and the flag protocol (`doConnect`, `connected`) of scanning for the wheel and
connecting to it.

- `big_endian.dfy` (module `Bytes`): bytes, `uint16`/`uint32`, the big-endian
  reads `be16dec`/`be32dec` at a byte offset and their inverse encoders.
- `wheel_frames.dfy` (module `WheelFrames`): the 20-byte primary message
  (`WheelDataMsg`, magic `0xDC5A5C20`) and the 16-byte extended message
  (`WheelDataExtendedMsg`), their offsets, the divisors, decoders and encoders.
- `wheel_state.dfy` (module `WheelState`): the `WheelData` record and, as
  functions from the old record to the new one, what a notification
  (`Notify`), a primary or extended message and one `calcDutyPeak` call do;
  the lemmas about them.
- `wheel_scan.dfy` (module `WheelScan`): advertisements, the address-and-service
  filter, and the outcomes of the connection steps.
- `wheel_io.dfy` (module `WheelIo`): class `WheelIo` holding `currEucState` and
  `wheelDevice`, with one method per callback or function of the source. Each
  method updates the record field by field and is proved to produce what the
  functions of `WheelState`/`WheelScan` say.

Conventions of the model:
- `millis()` is the parameter `now`, a 32-bit `unsigned long`; the hold test
  `currentTime - dutyPeakTime` wraps modulo 2^32 (its conversion to `float` does
  not change the comparison with 1000, since every value up to 2^24 is exact).
- The float fields voltage, speed, trip, odometer, current and temperature are
  kept as the raw wire integers; the engineering value is raw / divisor
  (`VOLTAGE_DIVISOR` = 100, `SPEED_DIVISOR` = 10, `TRIP_DIVISOR` and
  `ODOMETER_DIVISOR` = 1000, `CURRENT_DIVISOR` and `TEMP_DIVISOR` = 100).
  `Volts`, `Amps`, … give that value as an exact real.
- `dutyPeak` is a C `int`; the invariant `DutyInRange` keeps it in 0..655, so it
  never overflows.
- The BLE stack is abstract: a scan is the sequence of advertisements it
  reports, and a connection attempt is a `LinkOutcome` (connect succeeded,
  `onConnect` ran, service found, characteristic found, can notify).

Where the design description and the code disagree, the model follows the code:
- `tiltbackSpeed` is decoded from the alarm-speed bytes 4..5, so it always equals
  `alarmSpeed`; bytes 6..7 are never read.
- The phase current is divided by 100 (the struct comment says 10).
- The decay step never advances `dutyPeakTime`, so once the hold has elapsed
  every call decays by 3 again.
- When the scan finds nothing, `findAndConnectToWheel` returns the `connected`
  flag as it was, not a literal `false` (the caller in `src/main.cpp` only calls
  it while `connected` is false, so it sees `false` there).
- A failed `connect()` and a characteristic that cannot notify return without
  `disconnect()`; only a missing service or characteristic releases the link.
  If `onConnect` already ran, `connected` stays true after a failed attempt.
- The record is not cleared when a connection attempt starts; only
  `connected` (and `doConnect`) are reset.
- The configured address is compared for equality with the advertised
  address; no case folding is modelled.

## Model

| member | source | states |
|---|---|---|
| Bytes.Be16Bytes | src/wheel_io.cpp:189-190 | the two big-endian bytes of a 16-bit value read back with `be16dec` as that value |
| Bytes.Be32Bytes | src/wheel_io.cpp:182 | the four big-endian bytes of a 32-bit value read back with `be32dec` as that value |
| Bytes.Be16BytesOfRead | src/wheel_io.cpp:189-193 | a 16-bit big-endian read determines its two bytes: re-encoding gives them back |
| Bytes.Be32BytesOfRead | src/wheel_io.cpp:191-194 | a 32-bit big-endian read determines its four bytes: re-encoding gives them back |
| WheelFrames.EncodeMsg | src/wheel_io.cpp:42-51 | a primary message laid out as magic, voltage, speed, trip, odometer, current, temp in 20 big-endian bytes decodes to itself |
| WheelFrames.EncodeDecodeMsg | src/wheel_io.cpp:42-51 | the primary layout covers all 20 bytes exactly: re-encoding a decoded buffer gives the buffer |
| WheelFrames.EncodeExtendedMsg | src/wheel_io.cpp:55-65 | an extended message laid out as eight big-endian uint16 in 16 bytes decodes to itself |
| WheelFrames.EncodeDecodeExtendedMsg | src/wheel_io.cpp:55-65 | the extended layout covers all 16 bytes exactly |
| WheelFrames.ExtendedFieldAt | src/wheel_io.cpp:227-234 | extended field i is the big-endian value of bytes 2i and 2i+1 |
| WheelState.NotifyIgnoresOtherLengths | src/wheel_io.cpp:249-262 | a payload of neither 20 nor 16 bytes leaves the whole record unchanged |
| WheelState.NotifyRejectsBadMagic | src/wheel_io.cpp:182-187 | a 20-byte payload whose first four bytes are not 0xDC5A5C20 big-endian leaves the record unchanged |
| WheelState.NotifyPrimaryFields | src/wheel_io.cpp:189-195 | an accepted primary frame sets voltage, speed, trip, odometer, current and temp to the big-endian values at bytes 4, 6, 8, 12, 16, 18, sets msgPerSec, and changes nothing else |
| WheelState.VoltageScaleExample | src/wheel_io.cpp:189 | voltage bytes 0x01 0x90 give 4.00 V (400 / 100) |
| WheelState.NotifyExtendedFields | src/wheel_io.cpp:227-235 | an extended frame stores each uint16 from its offset, alarm speed / 10 and duty cycle / 100 by integer division, tilt-back speed equal to alarm speed, runs the peak tracker on the new duty cycle, and leaves primary fields and flags alone |
| WheelState.NotifyIgnoresTiltbackBytes | src/wheel_io.cpp:230 | two extended frames that differ only in bytes 6..7 give the same record |
| WheelState.PeakRaise | src/wheel_io.cpp:201-205 | a duty cycle above the peak becomes the peak and stamps `now` |
| WheelState.PeakDecay | src/wheel_io.cpp:208-215 | otherwise, once more than 1000 ms (mod 2^32) have passed, the peak drops by 3, clamped at 0, and its time is kept |
| WheelState.PeakHold | src/wheel_io.cpp:208-210 | otherwise, within 1000 ms, nothing changes |
| WheelState.PeakStepBounds | src/wheel_io.cpp:199-216 | from a non-negative peak the new peak is non-negative and at most the larger of old peak and duty cycle; only peak and its time change |
| WheelState.PeakRunDecays | src/wheel_io.cpp:208-215 | n samples past the hold that stay at or below the decaying peak take 3n off it (clamped at 0) and never move its time |
| WheelState.PeakRaiseExample | src/wheel_io.cpp:201-205 | peak 50, sample 60 at t0+100: peak 60 stamped t0+100 |
| WheelState.PeakDecayExample | src/wheel_io.cpp:208-215 | peak 60 at t0, sample 10 at t0+1500 then t0+1501: 57 then 54, time still t0 |
| WheelState.NotifyKeepsDutyInRange | src/wheel_io.cpp:222-236 | every notification keeps duty cycle at most 655 and the peak in 0..655 |
| WheelState.ZeroCleared | src/wheel_io.cpp:67 | the zero record has every numeric field zero and both flags false |
| WheelScan.FirstWheelIndex | src/wheel_io.cpp:121-143 | the first advertisement whose address is the target and that lists the wheel service, or none when no advertisement passes both tests |
| WheelScan.SubscribedIff | src/wheel_io.cpp:303-348 | a connection attempt succeeds exactly when connect, service lookup, characteristic lookup and notify support all succeed |
| WheelScan.FailureLeavesFlag | src/wheel_io.cpp:292-348 | after a failed attempt `connected` is true exactly when `onConnect` ran; a characteristic that cannot notify does not release the link |
| WheelIo.WheelIo.constructor | src/wheel_io.cpp:67 | the record starts all zero, not connected, no device |
| WheelIo.WheelIo.InitWheelIo | src/wheel_io.cpp:94-99 | clears `connected` and `doConnect`, nothing else |
| WheelIo.WheelIo.OnResult | src/wheel_io.cpp:121-144 | a matching advertisement sets `doConnect` and records the device; any other leaves record and device unchanged |
| WheelIo.WheelIo.ParseWheelDataMsg | src/wheel_io.cpp:178-196 | the record becomes `ApplyPrimary` of the old record |
| WheelIo.WheelIo.CalcDutyPeak | src/wheel_io.cpp:199-216 | the record becomes `PeakStep` of the old record at `now` |
| WheelIo.WheelIo.ParseWheelDataExtendedMsg | src/wheel_io.cpp:222-236 | the record becomes `ApplyExtended` of the old record |
| WheelIo.WheelIo.NotifyCallback | src/wheel_io.cpp:242-272 | the record becomes `Notify` of the old record: dispatch by length 20, 16 or neither |
| WheelIo.WheelIo.OnConnect | src/wheel_io.cpp:277-281 | sets `connected`, nothing else |
| WheelIo.WheelIo.OnDisconnect | src/wheel_io.cpp:283-288 | every numeric field zero and `connected` false, whatever the record held |
| WheelIo.WheelIo.ConnectToWheel | src/wheel_io.cpp:292-349 | returns true exactly on the subscribed path, calls `disconnect()` exactly on a missing service or characteristic, and changes only `connected` |
| WheelIo.WheelIo.FindAndConnectToWheel | src/wheel_io.cpp:359-380 | connects only when some scanned advertisement matched, to the first one, with `doConnect` cleared; otherwise only `doConnect` is cleared; returns the final `connected` |

## Left out

- BLE stack calls (`BLEDevice::init`, scan parameters, start, stop and `clearResults`, `createClient`, `setClientCallbacks`, `connect`, `getService`, `getCharacteristic`, `canRead`/`readValue`, `registerForNotify`, the `new` allocations): foreign library code; their results are the advertisement sequence and the `LinkOutcome` parameters.
- `calcUpdateFreq` (float division by a millisecond gap, with a hidden static `lastTime`): its result is the parameter `msgRate`, stored as `msgPerSec`.
- IEEE float scaling of the primary fields: the raw integers and divisors are kept instead.
- Serial logging and `printhex`: diagnostic output only.
- The asynchronous `onDisconnect` that follows `disconnect()`: `ConnectToWheel` reports the call, and `OnDisconnect` is a separate method; the race between it and an in-flight notification, and the `delay(200)` wait for late scan callbacks, are concurrency.
- Scan timeout of `SCAN_SECONDS`: a scan is the finite sequence of advertisements delivered before it ended.
- Parsing of the configured MAC text into a six-byte address: done by the BLE library.
- `getWheelData`: it returns a pointer to the record, which is the `data` field itself.
- `speedPeak`: declared in the record but never written by this core except by the clearing on disconnect.
- `src/ui.cpp`, `src/power.cpp`, `src/main.cpp`: drawing, buttons, battery ADC, deep sleep and the power-off-on-failure policy are hardware and UI.
