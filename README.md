# av-controller: the MIDI-to-control pipeline in Dafny

This project models how av-controller turns MIDI input into changes on its
on-screen controls, and proves properties of that model.

- **Decoder and bus** (`Midi`). A three-byte channel voice message decodes
  into a Note Off (0x8n), Note On (0x9n) or Control Change (0xBn) signal, as
  in the Channel Voice Messages chapter of the MIDI 1.0 Detailed
  Specification. Each signal carries a `sourceId` (`key-<ch>-<key>` or
  `cc-<ch>-<cc>`). The MIDI listener hands every decoded signal to each
  registered listener, in registration order.
- **Controls** (`Controls`, `Meters`, and `StoreControls` for the older
  copy). Fader, Pad, Switch, Selector, ConfirmButton, ConfirmSwitch, Label,
  Cake, Group and TabbedPages are classes whose methods update their fields
  in place. Each control keeps a list of the mappings bound to it. Each
  `onUpdate`/`onTouch` call is recorded in an append-only log. The 4-second
  disarm timer of the confirm controls is a pending-timer flag, plus a
  `FireTimer` step for the moment it runs out.
- **Mappings and registry** (`Mappings`, `StoreMappings`). A fader mapping
  sets its fader to `value / 127` of the fader's range. A pad mapping
  presses its pad with `velocity / 127` on Note On and releases it on Note
  Off. The registry keeps a `sourceId → mapping` table. `maybeMapTo` learns
  a pending source onto a clicked control, or in unmap mode unbinds every
  mapping of that control. The registry's MIDI listener routes each signal
  to the mapping stored under its id.

Shared pieces:

- `JsValues` holds the JavaScript semantics the code relies on: the
  `typeof === 'number'` test, division by zero, the truncating `%`, and the
  decimal rendering inside template literals.
- `Specs` holds the control descriptors that are passed in from outside.

JavaScript inheritance becomes composition. Each control class holds its
base-class part (`base: Control`: the mapping list and the update log). The
closed datatype `AnyControl` stands for "some control" wherever the source
calls a control without knowing its class.

## Model

| member | source | states |
|---|---|---|
| `JsValues.NumberOr` | src/controls.ts:260-264 | a number payload is taken as the new value; any other payload keeps the current one |
| `JsValues.TruncRem` | src/controls.ts:167-173 | JavaScript `%`: the remainder has the sign of the dividend, is smaller than the divisor in magnitude, and has the magnitude of the natural remainder |
| `JsValues.DecimalString` | src/midiListener.ts:17 | `${n}` is a non-empty string of decimal digits |
| `JsValues.ParseDecimalString` | src/midiListener.ts:17 | reading back the decimal rendering of n gives n |
| `JsValues.DecimalStringInjective` | src/midiListener.ts:17 | distinct numbers render differently |
| `JsValues.DashJoinInjective` | src/midiListener.ts:38 | `${a}-${b}` determines both a and b |
| `Specs.DenormalizeEndpoints` | src/controls.ts:104-107 | setNormValue(0) stores min and setNormValue(1) stores max |
| `Specs.FaderSpec.Denormalize` | src/controls.ts:104-107 | `n * (max - min) + min`, the value setNormValue stores |
| `Specs.FaderSpec.Normalize` | src/controls.ts:109-111 | `(v - min) / (max - min)`, with division by zero kept apart |
| `Specs.DenormalizeRange` | src/controls.ts:104-107 | with min < max, a normalised value lands in [min, max] if and only if it lies in [0, 1]: nothing is clamped |
| `Specs.NormalizeDenormalize` | src/controls.ts:104-111 | when max ≠ min, getNormValue after setNormValue(n) gives n back |
| `Specs.DenormalizeNormalize` | src/controls.ts:99-111 | when max ≠ min, getNormValue after setValue(v) is finite and denormalises back to v |
| `Specs.NormalizeEmptyRange` | src/controls.ts:109-111 | when max = min, getNormValue divides by zero |
| `Midi.ShiftAndMask` | src/midiListener.ts:81-82 | on a byte, `>> 4` and `& 0b00001111` are the code and the channel that `Code` and `Channel` compute |
| `Midi.Code` | src/midiListener.ts:81 | `data[0] >> 4`: the message code, below 16 |
| `Midi.Channel` | src/midiListener.ts:82 | `data[0] & 0b00001111`: the channel, below 16 |
| `Midi.StatusSplit` | src/midiListener.ts:81-82 | the code and the channel of any status byte both lie in 0..15, and 16·code + channel is the byte |
| `Midi.Interpret` | src/midiListener.ts:78-94 | a frame gives no signal exactly when its code is not 8, 9 or 11; code 8 gives NoteOff(channel, data1), code 9 gives NoteOn(channel, data1, data2), and code 11 gives ControlChange(channel, data1, data2), for any byte values |
| `Midi.InterpretEncode` | src/midiListener.ts:78-94 | every signal the MIDI byte layout can carry is decoded from its encoding unchanged |
| `Midi.NoteOffIgnoresData2` | src/midiListener.ts:85-86 | status 8 gives NoteOff(channel, data1) whatever the third byte is |
| `Midi.NoteOnVelocityZero` | src/midiListener.ts:87-88 | status 9 with velocity 0 still gives a Note On, not a Note Off |
| `Midi.InterpretExamples` | src/midiListener.ts:85-93 | [0x90,0x40,0x7F] gives NoteOn(0,64,127), [0xB2,0x07,0x40] gives CC(2,7,64), and status 0xF8 gives nothing |
| `Midi.IdInjective` | src/midiListener.ts:17-38 | two sources share an id exactly when they are the same kind, channel and number |
| `Midi.Prefix` | src/midiListener.ts:17-38 | the literal part of the template: `key-` for note signals, `cc-` for control changes |
| `Midi.SourceKey.Id` | src/midiListener.ts:17-38 | the id template, prefix then `${channel}-${number}`; IdInjective states what it identifies |
| `Midi.Signal.SourceId` | src/midiListener.ts:17-38 | a signal's `sourceId`: the id of its source, so Note On and Note Off on one key share it |
| `Midi.SourceIdIdentifiesSource` | src/midiListener.ts:10-40 | two signals share a `sourceId` exactly when they come from the same source: Note On and Note Off on one key share it, and `key-` never equals `cc-` |
| `Midi.Broadcast` | src/midiListener.ts:72-74 | the calls of one broadcast go to a prefix of the listeners, the i-th call to the i-th listener, and a throwing listener is the last one called |
| `Midi.AnyFails` | src/midiListener.ts:72-74 | whether some registered listener throws on the signal |
| `Midi.BroadcastCallsEach` | src/midiListener.ts:72-74 | the i-th listener is called exactly when no earlier listener throws; when none throws, every listener is called once |
| `Midi.BroadcastAppend` | src/midiListener.ts:72-74 | listeners registered after a run in which none throws are called after all of them, in order |
| `Midi.BroadcastStops` | src/midiListener.ts:72-74 | listeners registered after one that throws are never called |
| `Midi.MidiListener.constructor` | src/midiListener.ts:45 | a new listener bus has no listeners and has made no calls |
| `Midi.MidiListener.Handle` | src/midiListener.ts:69-76 | an undecodable frame calls no one and returns normally; a decoded signal is passed to the listeners in registration order up to and including the first that throws, and `handle` throws exactly when one of them does; the listener list is unchanged |
| `Midi.MidiListener.AddListener` | src/midiListener.ts:96-98 | the listener is appended and the earlier ones are kept |
| `Controls.Control.constructor` | src/controls.ts:24-30 | a control starts with no mappings and no updates |
| `Controls.Control.AddMapping` | src/controls.ts:36-38 | appends exactly the given mapping and keeps the earlier ones |
| `Controls.Control.RemoveMappings` | src/controls.ts:40-42 | the list becomes empty and no update is reported |
| `Controls.TabIndexAt` | src/controls.ts:32-34 | `777 + x * 101 + y` for the control at cell (x, y); TabIndexOrder states the order it gives |
| `Controls.AnyControl.TabIndex` | src/controls.ts:32-34 | `tabIndex()` of any control, from its spec's cell |
| `Controls.TabIndexOrder` | src/controls.ts:32-34 | on a grid under 101 rows, tab order runs column by column and then row by row, and no two cells share an index |
| `Controls.Fader.constructor` | src/controls.ts:92-97 | the value starts at the spec's initial value |
| `Controls.Fader.SetValue` | src/controls.ts:99-102 | stores v unclamped and reports it exactly once |
| `Controls.Fader.SetNormValue` | src/controls.ts:104-107 | stores the denormalised value and reports it exactly once |
| `Controls.Fader.GetNormValue` | src/controls.ts:109-111 | finite exactly when max ≠ min, and then it denormalises back to the stored value |
| `Controls.Pad.constructor` | src/controls.ts:116-123 | a pad starts unpressed |
| `Controls.Pad.Press` | src/controls.ts:125-128 | sets pressed and reports `{press: true, velocity: v}` once |
| `Controls.Pad.Release` | src/controls.ts:130-133 | clears pressed and reports `{press: false}` once |
| `Controls.Switch.constructor` | src/controls.ts:139-144 | `on` starts at the spec's `initiallyOn` |
| `Controls.Switch.Toggle` | src/controls.ts:146-149 | negates `on` and reports the new value |
| `Controls.ToggleTwice` | src/controls.ts:146-149 | toggling twice restores `on`, after reporting both new values |
| `Controls.SelectorSteps` | src/controls.ts:167-173 | from an index in [0, n), increment and decrement stay in [0, n), wrap n-1 to 0 and 0 to n-1, and undo each other |
| `Controls.NextIndex` | src/controls.ts:167-169 | `(index + 1) % options.length` with JavaScript `%` |
| `Controls.PrevIndex` | src/controls.ts:171-173 | `(index - 1 + options.length) % options.length` with JavaScript `%` |
| `Controls.Selector.constructor` | src/controls.ts:155-160 | the index starts at the spec's initial index |
| `Controls.Selector.Select` | src/controls.ts:162-165 | sets the index and reports it |
| `Controls.Selector.Increment` | src/controls.ts:167-169 | moves to the next index with JavaScript `%`, reports nothing, and gives NaN when there are no options |
| `Controls.Selector.Decrement` | src/controls.ts:171-173 | moves to the previous index with JavaScript `%`, reports nothing, and gives NaN when there are no options |
| `Controls.ButtonConfirmsOnlyWhenArmed` | src/controls.ts:186-205 | from idle, whatever the presses, timeouts and cancels: an armed button has a pending timer and last reported `false`, only booleans are reported, and every `true` directly follows a `false` |
| `Controls.ButtonStep` | src/controls.ts:186-205 | one press, timer firing or cancel on a confirm button: the new arming state and what is reported |
| `Controls.ButtonPressPress` | src/controls.ts:186-201 | two presses in time report `false` then `true` and end idle with no timer |
| `Controls.ButtonPressTimeoutPress` | src/controls.ts:186-201 | press, timeout, press reports `false` twice, never confirms, and leaves it armed with one timer |
| `Controls.ConfirmButton.constructor` | src/controls.ts:176-183 | starts idle with no timer |
| `Controls.ConfirmButton.Press` | src/controls.ts:186-201 | clears any pending timer first; idle: arms, reports `false`, schedules one timer; armed: reports `true` and returns to idle |
| `Controls.ConfirmButton.FireTimer` | src/controls.ts:197-199 | a pending timer disarms silently; with no timer pending nothing changes |
| `Controls.ConfirmButton.Cancel` | src/controls.ts:203-205 | disarms silently and leaves any timer pending |
| `Controls.SwitchFlipsOnlyWhenConfirmed` | src/controls.ts:220-239 | whatever happens, the reports alternate starting from the negated initial value, and `on` is the last value reported (the initial one if none) |
| `Controls.SwitchStep` | src/controls.ts:220-239 | one press, timer firing or cancel on a confirm switch: the new arming state, the new `on` and what is reported |
| `Controls.SwitchPressPress` | src/controls.ts:220-235 | two presses in time flip `on` once, report it once, and end idle |
| `Controls.ConfirmSwitch.constructor` | src/controls.ts:212-217 | starts idle with `on` at `initiallyOn` |
| `Controls.ConfirmSwitch.Press` | src/controls.ts:220-235 | clears any pending timer first; idle: arms silently with one timer; armed: flips `on`, reports it and returns to idle |
| `Controls.ConfirmSwitch.FireTimer` | src/controls.ts:231-233 | a pending timer disarms without changing `on` |
| `Controls.ConfirmSwitch.Cancel` | src/controls.ts:237-239 | disarms without changing `on` |
| `Controls.Label.constructor` | src/controls.ts:242-248 | a label has only its spec and an empty mapping list |
| `Controls.Cake.constructor` | src/controls.ts:253-258 | the value starts at the spec's initial value |
| `Controls.Cake.Update` | src/controls.ts:260-264 | takes a number payload and ignores everything else |
| `Controls.GroupForwardsWithoutPath` | src/controls.ts:57-63 | a group forwards to the child named by the first segment and drops the rest of the path: a leaf child runs with its default `[]`, a composite child throws |
| `Controls.Resolve` | src/controls.ts:44-86 | where an `update` with a path ends: a leaf stops at itself, a group follows one key and calls the child with no path, tabbed pages follow two keys and pass the rest on, and a missing key or absent path throws |
| `Controls.TabbedPagesForwards` | src/controls.ts:77-86 | a path of two or more segments is forwarded minus two segments to `pages[id[0]][id[1]]`; a shorter path stops at the TabbedPages |
| `Controls.MissingKeyThrows` | src/controls.ts:59 | a group path whose first segment names no child throws |
| `Controls.UpdateControl` | src/controls.ts:44-45 | `update` throws exactly when the path resolution throws, changes only the Cake it reaches, and leaves every other leaf as it was |
| `Controls.Group.constructor` | src/controls.ts:50-55 | keeps the given spec and children |
| `Controls.Group.Update` | src/controls.ts:57-63 | throws without a path or on a missing key; otherwise delivers to the resolved control |
| `Controls.TabbedPages.constructor` | src/controls.ts:69-75 | the active page is the first page name in key order, or none for no pages |
| `Controls.TabbedPages.Update` | src/controls.ts:77-86 | throws without a path or on a missing page or key; otherwise delivers to the resolved control |
| `Mappings.UnitRange` | src/mappings.ts:22 | v/127 is never negative, is at most 1 exactly for 7-bit values, and maps 0 to 0 and 127 to 1 |
| `Mappings.Unit` | src/mappings.ts:22 | `v / 127` as a fraction of the fader's range |
| `Mappings.CcTargetRange` | src/mappings.ts:20-24 | cc value 0 moves the fader to min, 127 to max, and a value lands in [min, max] exactly when it fits in 7 bits |
| `Mappings.CCToFaderMapping.constructor` | src/mappings.ts:15-19 | remembers its fader and registers no back-reference |
| `Mappings.CCToFaderMapping.HandleSignal` | src/mappings.ts:20-24 | only a Control Change moves the fader, to value/127 of its range, reported once; Note On and Note Off leave it untouched |
| `Mappings.KeyToPadMapping.constructor` | src/mappings.ts:28-32 | remembers its pad and registers no back-reference |
| `Mappings.KeyToPadMapping.HandleSignal` | src/mappings.ts:33-39 | Note On presses with velocity/127, Note Off releases, Control Change is ignored |
| `StoreControls.Without` | src/stores/controls.ts:25-27 | the filtered list holds no `m` |
| `StoreControls.WithoutCounts` | src/stores/controls.ts:25-27 | the filtered list keeps every other element exactly as often as it occurred: its multiset is the old one with all copies of `m` dropped |
| `StoreControls.WithoutAppend` | src/stores/controls.ts:25-27 | the filter keeps the relative order of what stays (it distributes over concatenation) |
| `StoreControls.WithoutAbsent` | src/stores/controls.ts:25-27 | removing a mapping that is not on the list leaves the list as it was |
| `StoreControls.Control.constructor` | src/stores/controls.ts:16-19 | a control starts with no mappings and no events |
| `StoreControls.Control.AddMapping` | src/stores/controls.ts:21-23 | appends one entry and keeps the rest |
| `StoreControls.Control.RemoveMapping` | src/stores/controls.ts:25-27 | removes every occurrence of `m` |
| `StoreControls.Control.RemoveMappingsAndList` | src/stores/controls.ts:29-33 | returns exactly the previous list and leaves the control's list empty |
| `StoreControls.Fader.constructor` | src/stores/controls.ts:39-44 | the value starts at the spec's initial value |
| `StoreControls.Fader.SetValue` | src/stores/controls.ts:46-50 | reports the touch while the old value is still stored, stores v, then reports v |
| `StoreControls.Fader.SetNormValue` | src/stores/controls.ts:52-55 | stores the denormalised value, with one touch that sees the old value and then one update |
| `StoreControls.Pad.constructor` | src/stores/controls.ts:60-67 | a pad starts unpressed |
| `StoreControls.Pad.Press` | src/stores/controls.ts:69-73 | reports the touch while the old pressed state is still stored, sets pressed, and reports `{press: true, value: v}` (key `value`, not `velocity`) |
| `StoreControls.Pad.Release` | src/stores/controls.ts:75-78 | clears pressed and reports `{press: false}`, with no touch |
| `StoreControls.ControlsStore.constructor` | src/stores/controls.ts:82 | the store starts empty |
| `StoreControls.ControlsStore.SetControls` | src/stores/controls.ts:84-86 | replaces the stored list wholesale |
| `StoreMappings.ControllerToFaderMapping.constructor` | src/stores/mappings.ts:11-16 | appends exactly this mapping to its fader's list |
| `StoreMappings.ControllerToFaderMapping.HandleSignal` | src/stores/mappings.ts:17-21 | only a Control Change moves the fader, to value/127 of its range |
| `StoreMappings.KeyToPadMapping.constructor` | src/stores/mappings.ts:25-30 | appends exactly this mapping to its pad's list |
| `StoreMappings.KeyToPadMapping.HandleSignal` | src/stores/mappings.ts:31-37 | Note On presses with velocity/127, Note Off releases, Control Change is ignored |
| `StoreMappings.Handled` | src/stores/mappings.ts:17-37 | what `handleSignal` leaves behind for each mapping class and signal kind; the mapping list never changes |
| `StoreMappings.Learnable` | src/stores/mappings.ts:63-75 | a `cc` source fits only a Fader and a `key` source only a Pad |
| `StoreMappings.Mismatch` | src/stores/mappings.ts:63-75 | the exact `console.error` text for each mismatched kind |
| `StoreMappings.Unlinked` | src/stores/mappings.ts:55-59 | the table without the entries whose mapping was on the removed list |
| `StoreMappings.Route` | src/stores/mappings.ts:84-85 | the mapping stored under the signal's id, if any |
| `StoreMappings.Stale` | src/stores/mappings.ts:61-80 | a replaced mapping still on its control's list while its source's entry holds another mapping |
| `StoreMappings.UnlinkedKeepsOthers` | src/stores/mappings.ts:55-59 | the unmap loop deletes an entry exactly when its mapping was on the control's list, and keeps every other entry unchanged |
| `StoreMappings.LearnedRoutes` | src/stores/mappings.ts:83-87 | once an entry is stored under a source's id, exactly the signals from that source are routed to it, and every other route is unchanged |
| `StoreMappings.MappingsStore.constructor` | src/stores/mappings.ts:46-49 | empty table, no pending source, unmap mode off |
| `StoreMappings.MappingsStore.MaybeMapTo` | src/stores/mappings.ts:51-81 | unmap mode wins: it empties the control's list and deletes exactly the entries bound to it, and keeps the flag. A fitting learn stores one fresh mapping under the pending id, overwriting any entry there, appends it to the control's list and clears the pending source; a mapping it replaces stays on its old control's list. A mismatched learn logs an error and changes nothing else. With nothing pending, nothing changes. Every table entry stays on its control's list |
| `StoreMappings.MappingsStore.Unmap` | src/stores/mappings.ts:52-60 | the control's list ends empty; the loop over the table deletes exactly the entries whose mapping that list held and keeps the others; the pending source, the flag and the error log are unchanged; every remaining entry stays on its control's list |
| `StoreMappings.MappingsStore.Learn` | src/stores/mappings.ts:61-80 | a fitting kind binds the pending source; a mismatched kind logs the matching error and leaves the table, the pending source and the control's list unchanged; a replaced mapping keeps its back-reference |
| `StoreMappings.MappingsStore.Bind` | src/stores/mappings.ts:63-79 | one fresh mapping of the fitting class is stored under the pending id, replacing any entry there and leaving all other entries; it is appended to the control's list; the pending source is cleared; a mapping it replaces stays on its old control's list |
| `StoreMappings.MappingsStore.Dispatch` | src/stores/mappings.ts:83-87 | calls `handleSignal` on exactly the mapping stored under the signal's id; an unknown id changes nothing |
| `StoreMappings.ListenerAsWrittenThrows` | src/stores/mappings.ts:84 | as written, the listener throws on every signal, even one whose id is in the table |
| `StoreMappings.ListenerAsWritten` | src/stores/mappings.ts:83-85 | the listener as written: calling the `sourceId` property, then looking the id up |
| `StoreMappings.UnmapAsWritten` | src/stores/mappings.ts:52-60 | unmap mode as written: a method missing from the control class throws before any change |
| `StoreMappings.UnmapAsWrittenThrows` | src/stores/mappings.ts:53 | as written, unmap mode throws before it deletes anything, even for an entry bound to the control |
| `Meters.Cake.constructor` | src/meters.ts:14-19 | the value starts at the spec's initial value |
| `Meters.Cake.Update` | src/meters.ts:21-24 | a number payload sets the value; anything else leaves it unchanged |
| `Meters.UpdateTwice` | src/meters.ts:21-24 | sending the same payload twice leaves the meter as sending it once |
| `JsValues.NumberOrIdempotent` | src/meters.ts:21-24 | applying a payload a second time changes nothing |

## Left out

- Listeners are code the bus cannot see. `Handle` takes as a parameter which listener throws on which signal, and reports whether an exception left it; what a listener does besides throwing is not modelled.
- Web MIDI access (src/midiListener.ts:47-66) is browser I/O. `Handle` receives the three bytes of a message directly. Messages of other lengths are not modelled.
- Vue and Pinia: each store is a plain class whose fields are the refs. The registry's listener is registered once when the store is created (src/stores/mappings.ts:83). That registration is not modelled; `MappingsStore.Dispatch` is the listener's body.
- Callbacks are logs. `onUpdate` becomes the `updates` log, and in the older copy `onTouch`/`onUpdate` become the `events` log. A callback's own effects belong to the UI and are not modelled.
- `console.error` in `maybeMapTo` becomes the `errors` log.
- The 4000 ms timer is not timed. The timer is a pending flag, and `FireTimer` is the moment it runs out. After firing, the source keeps the stale timer handle. Clearing that handle later has no effect, so the model drops it.
- Numbers are Dafny `real`, with no floating-point rounding. Selector indices are integers; a fractional index passed to `select` is not modelled.
- `Controls.TabbedPages.constructor`: JavaScript's key order (integer-like keys first) is not computed. The constructor takes that order as a parameter.
- A repeated learn for a source that is already bound replaces the table entry but does not remove the old mapping from its control's list (src/stores/mappings.ts:76-78). The design asks for that back-reference to be removed; the model follows the code, and `Bind`, `Learn` and `MaybeMapTo` state the left-over reference through `Stale`.
- Controls.Label has no behaviour of its own beyond the base class.
- The menu state and type modules, the CSS computation in the component helpers, the build configuration, and the external descriptor types are outside this model. Descriptors are records with the fields the code reads.

## Findings

| source | as written | input that shows it | evidently intended | confidence | as-written member | corrected member |
|---|---|---|---|---|---|---|
| src/stores/mappings.ts:84 | `signal.sourceId()` calls the id, but every signal stores `sourceId` as a string field (src/midiListener.ts:17, 27, 38), so the call throws a TypeError | the frame [0x90, 0x40, 0x7F] after a pad was learned for `key-0-64`: the listener throws and the pad is never pressed | look up the field: `signal.sourceId in mappings` and `mappings[signal.sourceId]` | not executed | `StoreMappings.ListenerAsWrittenThrows` | `StoreMappings.MappingsStore.Dispatch` |
| src/stores/mappings.ts:53 | `controller.removeMappingsAndList()` is called on the control class imported at src/stores/mappings.ts:3, which has only `removeMappings` (src/controls.ts:40-42), so unmap mode throws before it changes anything | unmap mode on, then a click on a fader with a learned mapping: the TypeError leaves the table entry and the fader's list in place | the older copy's `removeMappingsAndList` (src/stores/controls.ts:29-33): empty the list, return it, and delete the table entries it held | not executed | `StoreMappings.UnmapAsWrittenThrows` | `StoreMappings.MappingsStore.MaybeMapTo` |
