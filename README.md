# Sonoff TH relay device, modelled in Dafny

This project models the device object of the Sonoff TH firmware: the
`Sonoff` class that owns the relay state and the MQTT discovery flag, the
button interrupt handler that posts a command into the one-byte `cmd`
slot, and the board constants they use (pins, logic levels, the `CMD`
enumeration).

- `sonoff_defs.dfy`, module `SonoffDefs`: the pin numbers (button 0,
  relay 12, LED 13), the ON/OFF levels of the relay (HIGH/LOW) and of the
  LED (LOW/HIGH), `uint8`, and `Cmd` with the byte each command is stored as.
- `relay_spec.dfy`, module `RelaySpec`: the relay as a value (logical state
  plus the log of `digitalWrite` calls), `SetStep` and `InitStep` for one
  `setState` and one `init` call, `Replay` for a run of `setState` calls,
  `LineLevel` for the level a line was last driven to, and the lemmas about
  them.
- `sonoff.dfy`, module `SonoffTH`: class `Sonoff` with the fields `state`
  (`m_state`) and `discovered` (`m_isDiscovered`) and a ghost log `writes`
  of the pin writes, proved against `SetStep`/`InitStep`; class `Globals`
  holding `cmd`; `ButtonStateChangedISR`; and two client methods that run
  the start-up sequence and a double button press.

Dafny has no overloading, so the two `isDiscovered` overloads become
`IsDiscovered()` (the getter) and `SetDiscovered(p)` (the setter).
`digitalWrite` is modelled by appending to the ghost log `writes`. The
"nothing else changes" promises are stated by frames: `SetState` and `Init`
may modify only `state` and `writes`, `SetDiscovered` only `discovered`,
and the interrupt handler only `cmd`.

The device invariant `Mirrors` says that every write goes to the relay
line and that, once the relay line has been driven, its last level is the
one the logical state stands for (as far as this device's own writes
go; see "Left out"). Right after construction nothing has
been written, so the level of the line is then unconstrained; `init`
establishes it.

## Model

| member | source | states |
|---|---|---|
| `SonoffDefs.RelayLevel` | Sonoff_TH/Sonoff.h:14-15 | the relay level for a state is the ON level exactly when the state is on and the OFF level exactly when it is off |
| `SonoffDefs.RelayStateOf` | Sonoff_TH/Sonoff.h:14-15 | a relay level determines the logical state it stands for (inverse of `RelayLevel`) |
| `SonoffDefs.Ordinal` | Sonoff_TH/Sonoff.h:17-22 | the four commands are stored as the bytes 0, 1, 2, 3 in declaration order, all below 4 and so within `uint8_t` |
| `SonoffDefs.CmdOf` | Sonoff_TH/Sonoff.h:17-23 | a byte of `cmd` names a command exactly when it is below 4, and then that command is stored as that byte |
| `SonoffDefs.CmdRoundTrip` | Sonoff_TH/Sonoff.h:17-22 | distinct commands have distinct values, and reading a stored command back gives it |
| `SonoffDefs.PinsDistinct` | Sonoff_TH/Sonoff.h:8-10 | the button, relay and LED pins are pairwise distinct |
| `RelaySpec.RelayWrite` | Sonoff_TH/Sonoff.cpp:33-36 | the write `setState` and `init` issue targets the relay pin with the level whose logical state is the argument |
| `RelaySpec.SetStep` | Sonoff_TH/Sonoff.cpp:30-41 | one `setState` call on the relay value; it has no contract of its own, its properties are `SetStepSame`, `SetStepDifferent`, `SetStepIdempotent` and `SetStepMirrors` |
| `RelaySpec.InitStep` | Sonoff_TH/Sonoff.cpp:18-21 | one `init` call: an OFF write, then `SetStep` with false; its properties are `InitStepOff` and `InitStepMirrors` |
| `RelaySpec.Replay` | Sonoff_TH/Sonoff.cpp:30-41 | a run of `setState` calls and their results; its properties are `ReplayMirrors`, `ReplayWriteCount`, `ReplaySameNoWrites` and `ReplayLast` |
| `RelaySpec.Mirrors` | Sonoff_TH/Sonoff.cpp:30-41 | the device invariant: only the relay pin is written, and once written its last level is the one the logical state stands for; kept by `SetStepMirrors`, `ReplayMirrors`, established by `InitStepMirrors` |
| `SonoffTH.Sonoff.Valid` | Sonoff_TH/Sonoff.cpp:30-41 | the object invariant, `Mirrors` of the device's state and write log; established by the constructor, kept by every mutator |
| `RelaySpec.LineLevel` | Sonoff_TH/Sonoff.cpp:33-36 | the last level a line was driven to is absent exactly when no write targeted that line, and otherwise is the level of a write to it after which no write targeted that line |
| `RelaySpec.LineLevelAppend` | Sonoff_TH/Sonoff.cpp:33-36 | a new write sets the level of its own line and leaves every other line's level as it was |
| `RelaySpec.RelayWriteSparesOtherLines` | Sonoff_TH/Sonoff.h:8-10 | a relay write drives the relay line to its level and leaves the button and LED lines as they were |
| `RelaySpec.RelayOnlySparesOtherLines` | Sonoff_TH/Sonoff.cpp:18-41 | a log of relay writes only never drives the button or LED line |
| `RelaySpec.SetStepSame` | Sonoff_TH/Sonoff.cpp:30-39 | `setState` with the current state returns false, keeps the state and writes nothing |
| `RelaySpec.SetStepDifferent` | Sonoff_TH/Sonoff.cpp:30-40 | `setState` with a different state returns true, takes the new state and appends exactly one relay write, HIGH for on and LOW for off |
| `RelaySpec.SetStepIdempotent` | Sonoff_TH/Sonoff.cpp:30-41 | after any `setState(x)` the state is `x`, the result is true iff the state differed, and repeating the call returns false and changes nothing |
| `RelaySpec.SetStepMirrors` | Sonoff_TH/Sonoff.cpp:30-41 | `setState` keeps the device invariant, and after a change the relay line carries the new state's level |
| `RelaySpec.InitStepOff` | Sonoff_TH/Sonoff.cpp:18-21 | after `init` the state is off and the relay line was last driven LOW; `init` writes LOW once, and twice when the relay was on |
| `RelaySpec.InitStepMirrors` | Sonoff_TH/Sonoff.cpp:18-21 | `init` establishes the device invariant, and a second `init` leaves state and relay level as they are, adding one LOW write |
| `RelaySpec.ReplayMirrors` | Sonoff_TH/Sonoff.cpp:30-41 | any sequence of `setState` calls keeps the device invariant |
| `RelaySpec.ReplayWriteCount` | Sonoff_TH/Sonoff.cpp:30-41 | a sequence of `setState` calls appends to the log exactly one write per call that returned true |
| `RelaySpec.ReplaySameNoWrites` | Sonoff_TH/Sonoff.cpp:30-39 | repeated `setState` calls with the current state all return false and leave state and log unchanged |
| `RelaySpec.ReplayLast` | Sonoff_TH/Sonoff.cpp:30-41 | after a non-empty sequence of `setState` calls the state is the last argument |
| `SonoffTH.Sonoff.constructor` | Sonoff_TH/Sonoff.h:39-40 | a new device has relay state false, discovery flag false, no writes issued, and satisfies the invariant |
| `SonoffTH.Sonoff.Init` | Sonoff_TH/Sonoff.cpp:18-21 | the new relay value is `InitStep` of the old one: state off, relay last driven LOW, one or two LOW writes; the invariant is kept; the discovery flag is not modified |
| `SonoffTH.Sonoff.GetState` | Sonoff_TH/Sonoff.cpp:26-28 | returns the relay state and modifies nothing |
| `SonoffTH.Sonoff.SetState` | Sonoff_TH/Sonoff.cpp:30-41 | follows `SetStep`: returns true iff the argument differs from the old state, the state becomes the argument, one matching relay write only on a change, the invariant is kept, the discovery flag is not modified |
| `SonoffTH.Sonoff.IsDiscovered` | Sonoff_TH/Sonoff.cpp:46-48 | returns the discovery flag and modifies nothing |
| `SonoffTH.Sonoff.SetDiscovered` | Sonoff_TH/Sonoff.cpp:50-52 | the discovery flag becomes the argument; the invariant is kept; relay state, write log and `cmd` are not modified |
| `SonoffTH.Globals.constructor` | Sonoff_TH/Sonoff.h:23 | the `cmd` slot holds its initial byte |
| `SonoffTH.ButtonStateChangedISR` | Sonoff_TH/Sonoff.cpp:60-62 | `cmd` holds BUTTON_STATE_CHANGED (byte 2) afterwards whatever it held before; only `cmd` is modified |
| `SonoffTH.ButtonPressesCollapse` | Sonoff_TH/Sonoff.cpp:60-62 | two interrupts in a row leave the same single pending command as one, and a device's relay state is untouched by them |
| `SonoffTH.StartUpScenario` | Sonoff_TH/Sonoff.cpp:18-52 | construct, init, on, on, off: the first on and the off return true, the repeated on returns false, the state ends off; the discovery flag reads false, then true after being set |

## Left out

- Pin configuration and interrupt registration in the constructor
  (`pinMode`, `attachInterrupt`, Sonoff_TH/Sonoff.cpp:12-15): platform calls
  with no state in the model; the constructor only sets the field defaults.
- The electrical effect of `digitalWrite`: only the sequence of writes is
  recorded, as a ghost log.
- `getTemperature` and the OneWire/DallasTemperature globals: a blocking
  foreign library call returning a float, compiled only with the
  temperature-sensor option.
- The `volatile` qualifier of `cmd` and interrupt preemption: the handler is
  an ordinary sequential method; concurrency is not modelled.
- The main loop that reads and resets `cmd`, and `config.h`: not part of
  this model. Where `cmd` is defined (and so its initial value) is not part
  of this model either; `Globals` takes the initial byte as a parameter.
- The write log `writes` belongs to one `Sonoff` object, while the relay
  pin it stands for belongs to the whole board. The invariant that the
  relay line shows the logical state therefore holds only while a single
  `Sonoff` instance exists and nothing else (such as the main loop) writes
  the relay pin; the class does not prevent a second instance.
- The LED constants are defined with their values but no modelled code
  writes the LED, since the device never does.
- `SonoffTH.Sonoff.Init`: `init` is idempotent in its effect (state off,
  relay LOW), not in its writes: every call issues at least one more LOW
  write, and the model states exactly that.
