# USB volume knob controller — Dafny model

This project models the controller of a daemon that turns a USB volume knob into volume commands for a
remote audio playback engine. The knob produces volume-up, volume-down and mute key presses. The
`VolumeController` object holds six fields:

- the current volume;
- the volume saved when mute was engaged;
- the lower and upper bounds the engine accepts;
- the step of one knob click;
- the mute flag.

Each key press updates these fields and may issue a volume command on the control connection. The
engine's notifications overwrite the bounds (range report) or the volume (state report). At start-up,
a settings file of `KEY=value` lines overrides the defaults.

Files:

- `wrappers.dfy`: the `Option` datatype.
- `config_parse.dfy` (module `ConfigParse`): trimming, splitting on `=` and the per-line parser. It
  also holds the "last accepted line wins" reading of a settings file, and the two reading loops: the
  device identity and the volume settings.
- `volume_machine.dfy` (module `VolumeMachine`): the volume state machine as pure functions:
  - `OnKey` handles one key press;
  - `Drain` handles one poll of the device, that is, the drained events in order;
  - `OnNotification` handles one notification from the engine;
  - `Run` handles any interleaving of polls and notifications.
- `volume_controller.dfy` (module `Controller`): the class `VolumeController`. Its fields are updated
  in place. The constructor reads the settings. `ReadInputEvents` has a `while` loop that drains the
  events, handling each with `HandleEvent` (the body of the loop), and the four notification slots
  follow it. Every method is proved to move the fields between
  the states that the `VolumeMachine` functions compute, and to append exactly their commands to
  `outbox`. `outbox` is the log of what was handed to the control interface.
- `volume_properties.dfy` (module `VolumeProperties`): what the machine guarantees. This covers
  boundary idempotence, clamping, mute save-and-restore across any inputs that keep mute, event
  filtering and order, and the step-by-step volume-up sequence.

Decibel values are `double` in the program and `real` here. The only operations on them are `+`, `-`,
comparisons and `qBound`. `QBound(lo, v, hi)` is `max(lo, min(v, hi))`, so it returns `lo` whenever
`hi < lo`.

Three behaviours of the code are worth spelling out, because a reader might expect otherwise:

- **Range reports do not re-clamp the volume.** One might expect the volume to stay within the reported
  bounds once a range is known. But `onVolumeRangeResponse` does not clamp the current volume, and neither does
  `onStateResponse`. After a narrower range report, the next volume-up can therefore *lower* the
  volume. `NarrowedRangeThenVolumeUpLowers` proves this.
- **`MUTE_VOLUME` never affects a command.** The code comment at volume_controller.cpp:89 calls it the
  mute volume reference. But the saved volume is overwritten on every mute engage before it is ever read, so the configured value
  never reaches a command. `MuteVolumeSettingUnobserved` proves this.
- **Vendor and product ids are truncated.** They are read with `toUInt(…, 16)` and stored in
  `unsigned short` variables, so only their low 16 bits are kept (`ToUShort`).

## Model

| member | source | states |
|---|---|---|
| `ConfigParse.Trim` | volume_controller.cpp:81 | the result is the slice of the input left after removing its leading and trailing white space: it has no white space at either end, everything cut off is white space, and a string that is already trimmed is unchanged |
| `ConfigParse.Split` | volume_controller.cpp:83 | splitting on `=` gives one part more than there are `=` characters, and no part contains `=` |
| `ConfigParse.JoinSplit` | volume_controller.cpp:83 | joining the parts with `=` gives back the line that was split |
| `ConfigParse.SplitJoin` | volume_controller.cpp:83 | splitting parts joined with `=` gives back the parts, when none of them contains `=` |
| `ConfigParse.ParseLineAccepts` | volume_controller.cpp:81-86 | a line is accepted exactly when, trimmed, it is non-empty, does not start with `#` and contains exactly one `=`; the trimmed line is then `k=v`, the key is `k` trimmed and the value `v` trimmed, and neither contains `=` |
| `ConfigParse.ParseLineTrimmed` | volume_controller.cpp:81-86 | an accepted line's key and value carry no surrounding white space, and white space around the whole line does not change how it parses |
| `ConfigParse.ParseFormatLine` | volume_controller.cpp:81-86 | round trip: the line `key=value` parses back to that key and value |
| `ConfigParse.LastValueIsLastDefinition` | volume_controller.cpp:80-92 | a key is configured to `v` exactly when some accepted line sets it to `v` and no later accepted line sets it |
| `ConfigParse.LastValueNoneIffUndefined` | volume_controller.cpp:80-92 | a key keeps its default exactly when no accepted line sets it |
| `ConfigParse.DefaultsWithoutSettings` | volume_controller.cpp:10-96 | a file without accepted lines, or no file at all, leaves every setting at its default: the volume settings of :75 and the vendor and product ids 0x68e and 0x566 of :10-11 |
| `ConfigParse.ReadVolumeSettings` | volume_controller.cpp:75-92 | the loop over the lines gives, for each of the four volume keys, its last accepted value converted with `toDouble`, or the default |
| `ConfigParse.ToUShort` | volume_controller.cpp:24-25 | the stored id is below 2^16 and differs from the parsed id by a multiple of 2^16, i.e. it is the parsed id modulo 2^16; an id below 2^16 is unchanged |
| `ConfigParse.ReadDeviceIds` | volume_controller.cpp:10-27 | the loop gives each id's last accepted value, truncated to 16 bits, or the default 0x68e / 0x566 |
| `VolumeMachine.QBound` | volume_controller.cpp:149 | the result is at least `lo`; it is at most `hi` when `lo <= hi`; it is `v` when `v` is in range, `hi` above the range and `lo` below it |
| `VolumeMachine.OnKey` | volume_controller.cpp:146-181 | one press issues at most one command, always a volume command; it never changes the bounds or the step; it keeps the mute invariant; while muted, volume keys change nothing and issue nothing; other keys are no-ops; mute flips the flag without touching the current volume |
| `VolumeMachine.OnEvent` | volume_controller.cpp:145 | only events read with status success, of type `EV_KEY` and with value 1 act; every other event changes nothing |
| `VolumeMachine.Drain` | volume_controller.cpp:144-183 | a poll issues no more commands than it has events, and only volume commands; it keeps the bounds, the step and the mute invariant |
| `VolumeMachine.OnNotification` | volume_controller.cpp:189-220 | connect and error change no volume field; connect issues a range query and then a state query; an error issues one reconnection to localhost:4321 after 5000 ms; a range report replaces only the bounds; a state report sets both the current and the saved volume and then the mute invariant holds; the mute flag is never changed and no volume command is issued |
| `VolumeMachine.Run` | volume_controller.cpp:98-102 | any interleaving of polls and notifications keeps the mute invariant and the step |
| `Controller.InitialState` | volume_controller.cpp:75 | a new controller starts unmuted, so the mute invariant holds |
| `Controller.VolumeController.constructor` | volume_controller.cpp:75-98 | the fields hold the configured settings, the upper bound is 0 dB, the controller is unmuted, and the only command is the connection to localhost:4321 |
| `Controller.VolumeController.HandleEvent` | volume_controller.cpp:145-181 | the body of the polling loop moves the fields to `OnEvent` of the old fields and appends exactly `OnEvent`'s command to the outbox; the mute invariant is kept |
| `Controller.VolumeController.ReadInputEvents` | volume_controller.cpp:140-187 | after the loop the fields are `Drain` of the old fields, and exactly `Drain`'s commands have been appended to the outbox, in order; the mute invariant is kept |
| `Controller.VolumeController.OnConnected` | volume_controller.cpp:189-193 | the fields are unchanged, and a range query and then a state query are issued |
| `Controller.VolumeController.OnError` | volume_controller.cpp:195-201 | the fields are unchanged, and a reconnection to localhost:4321 after 5000 ms is issued |
| `Controller.VolumeController.OnVolumeRangeResponse` | volume_controller.cpp:203-207 | the bounds become the reported ones; nothing else changes and nothing is issued |
| `Controller.VolumeController.OnStateResponse` | volume_controller.cpp:209-220 | the current and saved volumes become the reported volume, whatever the mute state; nothing is issued; the mute invariant holds afterwards |
| `VolumeProperties.VolumeUpByOneStep` | volume_controller.cpp:147-156 | unmuted, with room above, volume up raises the volume by exactly one step and issues the new volume |
| `VolumeProperties.VolumeDownByOneStep` | volume_controller.cpp:157-166 | unmuted, with room below, volume down lowers the volume by exactly one step and issues the new volume |
| `VolumeProperties.VolumeKeyAtBoundary` | volume_controller.cpp:149-150 | unmuted, with a non-negative step and a non-empty range: at the upper bound volume up, and at the lower bound volume down, changes nothing and issues no command |
| `VolumeProperties.VolumeKeyClampsIntoRange` | volume_controller.cpp:147-166 | with a non-empty range, an unmuted volume key always ends inside the range; only the current volume changes; a command is issued exactly when the volume changed, and it carries the new volume |
| `VolumeProperties.VolumeKeyTarget` | volume_controller.cpp:147-166 | an unmuted volume key moves the volume one step when that stays in range; when the step passes the upper bound the volume becomes the upper bound; when it falls below the lower bound, or the range is empty, it becomes the lower bound |
| `VolumeProperties.VolumeKeyEffect` | volume_controller.cpp:147-166 | whatever the range, an unmuted volume key changes only the current volume, and issues a command exactly when the volume changed, carrying the new volume |
| `VolumeProperties.VolumeUpStopsAtBound` | volume_controller.cpp:147-156 | from -0.5 dB with a 1 dB step and a 0 dB upper bound, volume up sets and sends 0 dB |
| `VolumeProperties.VolumeKeyDirection` | volume_controller.cpp:149-159 | with a non-negative step, volume up never lowers a volume that is not above the upper bound; volume down never raises one that is not below the lower bound |
| `VolumeProperties.NarrowedRangeThenVolumeUpLowers` | volume_controller.cpp:203-205 | a range report does not re-clamp the volume, so the next volume up can lower it |
| `VolumeProperties.OnKeyKeepsRange` | volume_controller.cpp:146-181 | every key keeps the volume inside a non-empty range |
| `VolumeProperties.MuteToggle` | volume_controller.cpp:167-177 | engaging mute saves the current volume and sends the lower bound; releasing it sends the saved volume, which equals the current volume |
| `VolumeProperties.MuteRoundTrip` | volume_controller.cpp:167-177 | two mute presses send the lower bound and then the earlier volume, and the controller ends unmuted at that volume |
| `VolumeProperties.DrainWhileMuted` | volume_controller.cpp:148-158 | while muted, a poll without a mute press changes nothing and issues nothing |
| `VolumeProperties.RunWhileMuted` | volume_controller.cpp:144-205 | while muted, polls without a mute press and notifications other than state reports keep mute and both volumes, and send no volume command |
| `VolumeProperties.MuteRestoresVolume` | volume_controller.cpp:168-176 | mute, then any inputs that keep mute, then mute again: the lower bound is sent, no volume is sent in between, and the exact earlier volume is sent and held again, unmuted |
| `VolumeProperties.StateReportWhileMuted` | volume_controller.cpp:217-218 | a state report while muted keeps mute and sets both volumes, and the next mute press sends the reported volume |
| `VolumeProperties.StateReportReadsOnlyVolume` | volume_controller.cpp:213-218 | two state reports with the same volume have the same effect |
| `VolumeProperties.DrainOnlyActing` | volume_controller.cpp:145-181 | a poll acts exactly like the same poll restricted to presses of the three keys, in their order |
| `VolumeProperties.DrainAppend` | volume_controller.cpp:144 | draining two batches one after the other is the same as draining their concatenation, and the commands come in event order |
| `VolumeProperties.DrainKeepsRange` | volume_controller.cpp:144-183 | a poll that starts inside a non-empty range ends inside it |
| `VolumeProperties.RepeatedVolumeUp` | volume_controller.cpp:147-156 | `n` volume-up presses with room for all of them raise the volume by `n` steps and issue each intermediate volume in turn |
| `VolumeProperties.FiveStepsUp` | volume_controller.cpp:147-156 | from -20 dB in [-144, 0] with a 1 dB step, five volume-up presses reach -15 dB and issue -19, -18, -17, -16, -15 |
| `VolumeProperties.SavedVolumeUnobservedWhileUnmuted` | volume_controller.cpp:169-175 | two unmuted states that differ only in the saved volume issue the same commands on every run |
| `VolumeProperties.MuteVolumeSettingUnobserved` | volume_controller.cpp:89 | the configured `MUTE_VOLUME` never changes the commands a controller issues |

## Left out

- Device discovery and opening are I/O through a foreign library. This covers the scan of
  `/dev/input`, the identity and capability checks, `open`/`close`, libevdev initialisation, and
  quitting when no device is found (volume_controller.cpp:33-72, 111-138). Only the reading of the
  ids from the settings file is modelled.
- Reading the device: one poll is given as the sequence of events that `libevdev_next_event` returned
  with a non-negative status. The final negative status only leads to a log line, so it is not
  modelled.
- The settings file is given as its lines. A file that cannot be opened behaves like an empty one:
  apart from a log line, the code does the same thing. `toDouble` and `toUInt(…, 16)` are parameters,
  with no model of number syntax.
- The control interface (`clControlInterface`) is not part of this model. Its transport, the
  signal/slot wiring, and the 10 ms polling timer are not modelled either. Calls on the interface are
  recorded in `outbox`. The delayed reconnect after an error is recorded as a `ConnectToHost` command
  carrying its 5000 ms delay, not as a timer.
- `OnStateResponse` takes the engine's 17 report fields as one `StateReport` value.
- Floating point: decibels are exact reals. Rounding, NaN and infinities are not modelled.
- Logging, `main`, application shutdown and the destructor.
