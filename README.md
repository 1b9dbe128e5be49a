# SpaceFN remapping engine, modelled in Dafny

SpaceFN turns the space bar into a layer key. The engine grabs a physical
keyboard and copies its events to a virtual device. When space is pressed
it withholds the keys pressed next and waits. If space is released first
(a *tap*), space and the withheld keys go out unchanged. If a withheld key
is released first (a *combo*), or 200 ms pass (a *timeout*), the engine
enters the Fn layer. There, keys go out through the `[orig, repl, ext]`
rules of the configuration until space is released.

The model has five modules:

- `Core` (`core.dfy`) models `spacefn-rs/src/core.rs`. It holds the key value
  and its decoding and the states. It has the `KeyBuffer` class: a
  duplicate-free, insertion-ordered set of at most 8 codes. It has
  first-match rule resolution (`Resolve`) and the `StateMachine` class,
  with `map_key` as a loop proved against `Resolve`. The unit tests of
  `core.rs` are verified client methods (`TestKeyBuffer`, `TestKeyMap`, …).
- `EngineSpec` (`engine_spec.dfy`) states the handlers as functions:
  - what each state does with one event (`IdleStep`, `DecideStep`,
    `DecideTimeout`, `ShiftStep`);
  - what a handler does with a stream until it returns (`Handler`);
  - the command drain (`Drain`);
  - a whole session (`Run`, `FromStart`).
- `Engine` (`engine.dfy`) holds the imperative handlers. The `Session` class
  holds the physical device's remaining stream, the virtual device's
  output, the state, the shared code buffer and the configuration.
  `RunIdle`, `RunDecide`, `RunShift` and `RunStateMachine` are loops that
  change these fields. `SendMappedKey` is straight-line code that emits one
  or two events. Each method is proved equal to its `EngineSpec` function.
- `EngineProperties` (`engine_props.dfy`) proves what the handlers promise:
  - the three Decide outcomes, over whole input streams;
  - what Idle and Shift do;
  - the mapped emission;
  - that the buffer stays duplicate-free;
  - the command drain;
  - session-level facts, including an input on which one key is released
    twice.
- `Ui` (`ui.dfy`) models the pure helpers and field updates of
  `src/ui.rs`. These are the window's value decoding, the key-name table,
  the one-line rendering (proved readable back), and the newest-first
  history of twenty entries.

The handler logic is the same in `spacefn-rs/src/main.rs` and
`src/main.rs`, which differ only in tray code. One model covers both, and
the rows below cite whichever file is closer.

Modelling choices:

- **Physical device.** It is a stream of tokens. A token is a key event
  (code, raw value), a non-key event, or `Timeout`. `Timeout` marks the
  point where the Decide loop finds its 200 ms deadline passed. Idle and
  Shift have no deadline and skip it.
- **End of stream.** When the stream runs out inside a handler, the
  session ends with `stopped == false`. The source would keep waiting.
- **Commands.** `drains[k]` holds the commands waiting in the channel after
  the k-th handler return. `ReloadConfig` carries the result of loading
  the file: `Some(config)` or `None`.
- **Buffer.** The handlers' code buffer is unbounded; only `KeyBuffer` has
  the cap of 8.
- **Rule fields.** They are `u32`. The `as u16` cast keeps the low 16 bits
  (`Truncate`). `orig` is compared at full width.
- **Event values.**
  - In Idle and Decide, an event passed through goes out with its raw
    value.
  - Shift and `send_mapped_key` send the decoded value, so a value
    outside 0..2 goes out as 0.
  - The engine decodes unknown values as Release; the window shows them as
    Press (`DecodingsAgreeOnlyOnKnownValues`).
- **Pairing of presses and releases.** The engine does not always pair
  each press with one release. `DoubleRelease` proves this on a five-event
  input:
  1. Space is pressed.
  2. A key with no rule is pressed.
  3. The deadline passes: the key goes out as a press and stays claimed.
  4. The key is released in Shift. The release goes out, but the key is
     not unclaimed because it was not remapped.
  5. Space is released: the key is released a second time.

  `TimeoutRoundPairs` proves that the pairing holds when nothing is
  touched in Shift.

## Model

| member | source | states |
|---|---|---|
| Core.KeyValueFrom | spacefn-rs/src/core.rs:13-22 | 0, 1 and 2 decode to the value with that discriminant; every other integer decodes to Release |
| Core.KeyValueRoundTrip | spacefn-rs/src/core.rs:7-22 | decoding the discriminant of a value gives the value back |
| Core.Truncate | spacefn-rs/src/core.rs:109 | the `as u16` cast keeps the low 16 bits (the value and the result differ by a multiple of 65536, and the result is no larger) and leaves values that fit unchanged |
| Core.IndexOf | spacefn-rs/src/core.rs:56 | `position` finds the first occurrence: the code is there and nowhere before it |
| Core.Position | spacefn-rs/src/core.rs:56 | the scan reports a hit exactly when the code is present, and then at the first occurrence |
| Core.RemovedFromDistinct | spacefn-rs/src/core.rs:55-61 | removing a code from a duplicate-free buffer deletes that code only, keeps every other code, shortens the buffer by one exactly when the code was there, and keeps it duplicate-free |
| Core.RemovedAt | spacefn-rs/src/core.rs:56-57 | in a duplicate-free buffer, removing the code at position i cuts out exactly position i and keeps the order of the rest |
| Core.RemovedSubset | spacefn-rs/src/core.rs:55-61 | removal never adds a code |
| Core.AppendAbsentKeepsDistinct | spacefn-rs/src/core.rs:48-51 | pushing an absent code keeps the buffer duplicate-free |
| Core.KeyBuffer.constructor | spacefn-rs/src/core.rs:36-38 | a new buffer is empty |
| Core.KeyBuffer.Contains | spacefn-rs/src/core.rs:40-42 | true exactly when some position holds the code |
| Core.KeyBuffer.Append | spacefn-rs/src/core.rs:44-53 | succeeds exactly when fewer than 8 codes are held and the code is absent; it then adds the code at the end, and otherwise changes nothing; no duplicates and at most 8 codes are kept |
| Core.KeyBuffer.Remove | spacefn-rs/src/core.rs:55-61 | succeeds exactly when the code is present; deletes that code, keeps the others in order, and changes nothing otherwise; the invariant is kept |
| Core.KeyBuffer.Clear | spacefn-rs/src/core.rs:63-65 | the buffer is empty afterwards, so clearing twice is the same as once; the invariant is kept |
| Core.KeyBuffer.Iter | spacefn-rs/src/core.rs:67-69 | iteration yields every held code exactly once and nothing else, as many codes as `len` counts, in insertion order (the order is pinned by `Core.TestKeyBufferIterOrder`) |
| Core.KeyBuffer.Len | spacefn-rs/src/core.rs:71-73 | the count never exceeds 8 |
| Core.KeyBuffer.IsEmpty | spacefn-rs/src/core.rs:75-77 | empty exactly when the length is 0 |
| Core.Resolve | spacefn-rs/src/core.rs:105-122 | a result other than the code itself with no extended code comes only from a rule whose `orig` equals the code |
| Core.ResolveFirstMatch | spacefn-rs/src/core.rs:105-119 | the first rule whose `orig` equals the code decides: a replacement of 0 keeps the code, an extended field of 0 gives None |
| Core.ResolveNoMatch | spacefn-rs/src/core.rs:121 | without a matching rule the code maps to itself with no extended code |
| Core.ResolveIgnoresLaterRules | spacefn-rs/src/core.rs:106-118 | rules after a matching rule never change the result |
| Core.StateMachine.constructor | spacefn-rs/src/core.rs:93-99 | starts in Idle with a fresh empty buffer and the given configuration |
| Core.StateMachine.MapKey | spacefn-rs/src/core.rs:105-122 | the scan returns the first-match resolution of the code |
| Core.StateMachine.SetState | spacefn-rs/src/core.rs:124-129 | sets the state; entering Decide empties the buffer, any other target leaves it as it was |
| Core.StateMachine.CurrentState | spacefn-rs/src/core.rs:101-103 | reports the machine's current state |
| Core.StateMachine.Buffer | spacefn-rs/src/core.rs:131-133 | hands out the machine's own buffer, which keeps its invariant (no duplicates, at most 8 codes) |
| EngineSpec.Handler | spacefn-rs/src/main.rs:136-150 | a handler that returns has read at least one token and moves along Idle to Decide, Decide to Idle or Shift, Shift to Idle; one that does not return has read the whole stream |
| Engine.Session.constructor | spacefn-rs/src/main.rs:79-81 | the session starts in Idle with an empty buffer and nothing emitted |
| Engine.Session.SendKey | spacefn-rs/src/main.rs:148 | one key event is appended to the virtual device |
| Engine.Session.ForwardEvent | spacefn-rs/src/main.rs:138-140 | a non-key event is appended unchanged |
| Engine.Session.SendMappedKey | src/main.rs:255-269 | emits the mapped events of the code and returns whether it was remapped |
| Engine.Session.SendMappedEach | spacefn-rs/src/main.rs:168-170 | emits the mapped events of every code, in buffer order |
| Engine.Session.SendPlainPresses | spacefn-rs/src/main.rs:188-190 | emits a plain press of every code, in buffer order |
| Engine.Session.IdleOn | spacefn-rs/src/main.rs:137-148 | one token in Idle emits and exits as IdleStep says |
| Engine.Session.DecideOn | spacefn-rs/src/main.rs:166-212 | one token in Decide emits, updates the buffer and exits as DecideStep and DecideTimeout say |
| Engine.Session.ShiftOn | spacefn-rs/src/main.rs:226-255 | one token in Shift emits, updates the buffer and exits as ShiftStep says |
| Engine.Session.RunIdle | spacefn-rs/src/main.rs:129-151 | run_idle_state emits, consumes and returns what `Handler(Idle, …)` says |
| Engine.Session.RunDecide | spacefn-rs/src/main.rs:153-215 | run_decide_state clears the buffer on entry and then emits, consumes, keeps and returns what `Handler(Decide, …)` says |
| Engine.Session.RunShift | spacefn-rs/src/main.rs:217-258 | run_shift_state emits, consumes, keeps and returns what `Handler(Shift, …)` says |
| Engine.Session.DrainCommands | src/main.rs:111-120 | the drain ends with the configuration and the stop flag that `Drain` gives |
| Engine.Session.RunStateMachine | spacefn-rs/src/main.rs:84-126 | the dispatch loop produces exactly the output, state, buffer, configuration and stop flag of `Run` |
| Engine.RunSession | spacefn-rs/src/main.rs:69-127 | a whole session from Idle with an empty buffer produces the output and stop flag of `FromStart` |
| EngineProperties.MappedEventsOrder | src/main.rs:264-267 | send_mapped_key emits the extended code, when there is one, before the effective code; both carry the same value; without an extended code it emits one event |
| EngineProperties.RemappedIffEffectiveDiffers | src/main.rs:263-268 | the returned flag is true exactly when the emitted code differs from the input code |
| EngineProperties.ExtendedOnlyRuleNotRemapped | src/main.rs:261-268 | a first matching rule with replacement 0 yields "not remapped" and emits the original code |
| EngineProperties.WrappedRuleFields | spacefn-rs/src/core.rs:108-117 | a first matching rule whose replacement is a nonzero multiple of 65536 truncates to 0, so the code is kept and counts as not remapped; an extended field of that kind sends code 0 before the code |
| EngineProperties.UnmatchedPassesThrough | src/main.rs:261-268 | a code no rule names goes out alone, unchanged, and is not remapped |
| EngineProperties.MappedEachAppend | spacefn-rs/src/main.rs:168-170 | emitting for a buffer is emitting for each part of it in order |
| EngineProperties.MappedEachCoversEach | spacefn-rs/src/main.rs:234-236 | every buffered code's effective code goes out with the given value |
| EngineProperties.MappedEachValues | spacefn-rs/src/main.rs:168-170 | everything emitted for the buffer carries the given value |
| EngineProperties.MappedEachUnmapped | spacefn-rs/src/main.rs:168-170 | with no rules, the buffer goes out code for code, in order |
| EngineProperties.NonKeyForwarded | src/main.rs:133-136 | in every state a non-key event goes out unchanged and changes neither the buffer nor the state |
| EngineProperties.IdleOnKey | spacefn-rs/src/main.rs:142-148 | in Idle a space press emits nothing and leads to Decide; every other key event goes out with its raw value and Idle continues |
| EngineProperties.IdleForwardsAll | spacefn-rs/src/main.rs:136-150 | without a space press, Idle forwards every event unchanged and in order and does not return |
| EngineProperties.IdleStopsAtSpacePress | spacefn-rs/src/main.rs:144-147 | Idle returns Decide at the first space press, having forwarded exactly what came before and leaving the rest unread |
| EngineProperties.DecideOnKey | spacefn-rs/src/main.rs:183-212 | each Decide branch: tap, press buffered if absent, release of an absent code passed on raw, combo, and a repeat that does nothing |
| EngineProperties.TapEmission | spacefn-rs/src/main.rs:185-190 | the tap emits space press, space release, then one plain press per buffered code in buffer order |
| EngineProperties.DecideStepKeepsDistinct | spacefn-rs/src/main.rs:194-207 | Decide keeps its buffer duplicate-free |
| EngineProperties.DecideBuffersPresses | src/main.rs:180-194 | presses in Decide, including a second space press, are withheld and collected in arrival order |
| EngineProperties.TapOutcome | spacefn-rs/src/main.rs:185-193 | keys pressed after space and then a space release: space press, space release, the keys as plain presses in order; Idle next |
| EngineProperties.TimeoutOutcome | spacefn-rs/src/main.rs:166-173 | keys still held at the deadline go out as mapped presses only, in order, stay in the buffer; Shift next |
| EngineProperties.ComboOutcome | spacefn-rs/src/main.rs:204-212 | releasing a withheld key sends its mapped press then its mapped release, removes only that key (the others stay, never emitted); Shift next |
| EngineProperties.ShiftOnKey | spacefn-rs/src/main.rs:233-255 | in Shift: space release releases the whole buffer through the mapping and empties it; other space events do nothing; other keys go out mapped, and only remapped keys are added on press or removed on release |
| EngineProperties.ShiftExitReleasesClaimed | spacefn-rs/src/main.rs:233-239 | leaving Shift sends a release for every claimed code and empties the buffer |
| EngineProperties.ShiftTracksOnlyRemapped | spacefn-rs/src/main.rs:244-255 | whatever Shift holds was held on entry or is a remapped code |
| EngineProperties.ShiftLeavesEmpty | spacefn-rs/src/main.rs:233-239 | Shift only ever returns to Idle, with an empty buffer |
| EngineProperties.HandlerStepKeepsDistinct | spacefn-rs/src/main.rs:194-197 | no single event makes the buffer hold a code twice |
| EngineProperties.HandlerKeepsDistinct | src/main.rs:189-192 | no handler makes the buffer hold a code twice |
| EngineProperties.RunKeepsDistinct | spacefn-rs/src/main.rs:84-126 | throughout a session the buffer never holds a code twice |
| EngineProperties.DrainStops | src/main.rs:118 | the drain stops the session exactly when a Stop is among the drained commands |
| EngineProperties.DrainFailedReloadsKeepConfig | src/main.rs:113-117 | reloads that fail to load keep the configuration |
| EngineProperties.DrainLastLoadWins | src/main.rs:113-117 | in a drain without Stop, the last reload that loaded gives the configuration when only failed reloads follow it, and the session goes on |
| EngineProperties.SessionStartsIdle | src/main.rs:74-76 | a session starts in Idle with an empty buffer |
| EngineProperties.TimeoutRoundPairs | spacefn-rs/src/main.rs:166-173 | a round of space press, key presses, deadline, space release sends each key's mapped press and then its mapped release, and ends in Idle with an empty buffer |
| EngineProperties.HeldPastDeadline | spacefn-rs/src/main.rs:166-173 | a key with no rule pressed in Decide and held at the deadline is buffered, sent as its press, and the handler enters Shift |
| EngineProperties.ReleasedTwice | spacefn-rs/src/main.rs:233-255 | in Shift, releasing a buffered key with no rule sends its release and untracks nothing; the space release then releases it again from the buffer |
| EngineProperties.DoubleRelease | spacefn-rs/src/main.rs:244-255 | a key with no rule, held at the deadline and released in Shift before space, goes out as one press and two releases |
| Ui.NewKeyEvent | src/ui.rs:35-46 | 0 is shown as Release, 2 as Repeat, every other value (1 included) as Press; the code is kept |
| Ui.DecodingsAgreeOnlyOnKnownValues | src/ui.rs:38-43 | the window and the engine agree on 0, 1 and 2; on every other value the window shows Press where the engine reads Release |
| Ui.GetKeyName | src/ui.rs:58-184 | codes above 120 other than 125 are named "?" |
| Ui.UnknownKeyName | src/ui.rs:58-184 | the name is "?" exactly for codes above 120 other than 125 |
| Ui.KeyNameExamples | src/ui.rs:60-117 | 57 is "Space", 30 is "A", 0 is "Reserved" |
| Ui.DigitsRoundTrip | src/ui.rs:54 | the decimal digits of the code read back as the code |
| Ui.LeadingZerosRoundTrip | src/ui.rs:54 | zero padding does not change the number read back |
| Ui.PaddedRoundTrip | src/ui.rs:54 | the `{:03}` field reads back as the code and is three characters for codes below 1000 |
| Ui.DisplayString | src/ui.rs:48-55 | the line is the arrow, a space, the zero-padded code (three characters below 1000) that reads back as the code, a space, and the key name |
| Ui.ArrowInjective | src/ui.rs:49-53 | the three values render with three different arrows |
| Ui.Pushed | src/ui.rs:208-214 | the new event comes first, older entries follow in order, and the history never exceeds 20 entries |
| Ui.HistoryIsLastTwentyNewestFirst | src/ui.rs:208-214 | after any sequence of events, the history is the last twenty, newest first |
| Ui.SpacefnApp.constructor | src/ui.rs:187-198 | the window starts in Idle with no history and no error message |
| Ui.SpacefnApp.UpdateState | src/ui.rs:200-202 | only the current state changes |
| Ui.SpacefnApp.AddKeyEvent | src/ui.rs:204-206 | records the event with the value of a press |
| Ui.SpacefnApp.AddKeyEventFull | src/ui.rs:208-214 | inserts the event at the front and drops the oldest past twenty; only the history changes |
| Ui.SpacefnApp.SetError | src/ui.rs:216-218 | the error message becomes the given text |
| Ui.SpacefnApp.ClearError | src/ui.rs:220-222 | the error message is cleared |

## Left out

- Device I/O is not modelled: opening, grabbing and creating the devices, `check_permissions`, `list_input_devices`, and the `select`-based `wait_for_event`. The physical device is the token stream, and the virtual device is the output sequence.
- Wall-clock time is not modelled: `Instant`, the 200 ms `Duration` and the sleeps. The `Timeout` token stands for the deadline check that finds the time passed.
- Event batches are not modelled. `fetch_events` hands events over in batches. A handler that returns in the middle of a batch would leave the rest of that batch to the device library's buffer; the model keeps those events in the stream for the next handler.
- The handlers' blocking read is not modelled. A handler that runs out of input ends the modelled session; the source waits for more input.
- Threads, channels, locks and the `UiMessage` notifications are not modelled; the engine ignores the notifications' send results. The command channel is the `drains` sequence.
- Loading the configuration file is not modelled: `Config::load` and everything else in src/config.rs. A reload carries the load result as a value.
- The tray and the egui rendering are not modelled. This covers `spawn_tray_thread`, `run_ui`, `update`, `state_color`, `state_text` and `reload_config` (file I/O).
- Fields of `SpacefnApp` other than the state, the history and the error message are not modelled.
- Ui.NewKeyEvent: the event's timestamp (`Instant::now()`) is not modelled.
- I/O errors from `send_key`, `forward_event` and `fetch_events`, which end the source's session through `?`, are not modelled.
- EngineProperties.TimeoutRoundPairs: pairing of presses and releases is proved only for this round with no key touched in Shift, because the source breaks it in general (see `EngineProperties.DoubleRelease`).
- The key-name table gives 85 and 87 the same name (F11), and likewise 86 and 88 (F12) and 101 and 103 (Up). The model keeps the table as written, but no lemma states these shared names.
