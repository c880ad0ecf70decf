# MIDI pattern generator: output processor, cable authoring, MIDI ports, settings views

This project is a Dafny model of four pieces of a browser-based MIDI pattern
generator. Each piece has proofs about its behaviour.

- **The MIDI output processor** (`output_processor.dfy`, module `OutputProcessor`).
  Each time slice, `process` turns the buffered note events into MIDI 1.0
  channel voice messages and sends them to its output port. The model covers
  the Note On / Note Off bytes, the timestamp formula and the "connected"
  guard. A receiver-side decoder is the partner for the byte layout.
- **Connection authoring and cables** (`connections3d.dfy`, module `Connections3d`).
  - The drag state machine turns a drag from an output connector into a
    `connectProcessors` action.
  - `updateCables` reconciles the cables group with the store's connection
    ids.
  - Connect mode sets the visibility of the cables' delete buttons.
  - `drawCables` skips some connections.
  - A dispatch table runs all of these on state changes.

  The cables group is a sequence of scene children. Each child has an object
  identity, a name and an optional delete button.
- **MIDI port selection and preferences** (`midi.dfy`, module `Midi`). This
  covers:
  - requesting access;
  - creating port models on success;
  - selecting input and output ports by id;
  - the clock-in and note-in flags;
  - the `getData`/`setData` preference record.

  Calls to the collaborators the module talks to are recorded in order. These
  are the controls view, the preferences view, the MIDI network and the
  transport.
- **The settings-view registry** (`app_view.dfy`, module `AppView`). Views are
  appended on creation. On deletion, the last view for the processor is
  terminated and spliced out.

`common.dfy` holds the `Option` type that the other modules share.

Source objects whose fields change become classes:
- `OutputProcessor.Processor` and `OutputProcessor.MidiOutputPort`;
- `Connections3d.CableEditor`, for the module-level `state`, `currentCable` and `cablesGroup`;
- `Midi.MidiController`, for the closure variables of `createMIDI`;
- `AppView.AppView`.

Their loops become `while`/`for` loops with invariants. Each loop is proved
against a pure specification function, for example `Encode`, `Prune`,
`AddMissing`, `LastMatch`, `LastIndexFor` or `Toggled`. The properties the
source promises are proved as lemmas about those functions.

## Model

| member | source | states |
|---|---|---|
| OutputProcessor.Encode | src/js/wh/processors/output/processor.js:26-39 | One connected `process` call sends exactly as many messages as there are note-on and note-off events, so never more than one per buffered event. |
| OutputProcessor.EncodeConcat | src/js/wh/processors/output/processor.js:26-39 | The messages follow buffer order: encoding a concatenated buffer gives the concatenation of the two encodings. |
| OutputProcessor.EncodeAt | src/js/wh/processors/output/processor.js:26-39 | The k-th message sent is the message of a buffered note event with exactly k note events before it. |
| OutputProcessor.TypeOf | src/js/wh/processors/output/processor.js:31-37 | Only the exact tags `'noteon'` and `'noteoff'` are recognised. Every other tag falls through the `switch`. |
| OutputProcessor.MessageFor | src/js/wh/processors/output/processor.js:31-38 | An event yields a message exactly when it is a note-on or a note-off. That message has three bytes, carries the event's pitch as its second byte and has the event's timestamp. |
| OutputProcessor.NoteEventMessage | src/js/wh/processors/output/processor.js:31-38 | A note-on is sent as exactly `[0x90 + (channel - 1), pitch, velocity]`. A note-off is sent as `[0x80 + (channel - 1), pitch, 0]`, so its velocity is dropped. Any other event type sends nothing and raises no error. All messages carry the event's timestamp. |
| OutputProcessor.MessageRoundTrip | src/js/wh/processors/output/processor.js:32-36 | Take a note event with channel 1..16 and 7-bit pitch and velocity. Its message has a status byte and two data bytes. A receiver decodes it back to the same type, channel and pitch, with the note-on velocity or 0 for a note-off. |
| OutputProcessor.NoteOnChannelZeroReadsAsNoteOff | src/js/wh/processors/output/processor.js:33 | Channels are not checked: a note-on for channel 0 reaches the wire as a note-off on channel 16. |
| OutputProcessor.TimestampFromNow | src/js/wh/processors/output/processor.js:22-29 | An event's timestamp is `now - offset*mult + ticks*mult`, which is `now + (ticks - offset)*mult`. |
| OutputProcessor.TimestampMonotonic | src/js/wh/processors/output/processor.js:29 | With a positive tick duration, a later tick position gets a strictly later timestamp. |
| OutputProcessor.MidiOutputPort.Send | src/js/wh/processors/output/processor.js:33-36 | A send appends one message with the given values and timestamp to the port's log. |
| OutputProcessor.Processor.constructor | src/js/wh/processors/output/processor.js:56-61 | A new processor keeps its port id and port, and starts enabled. |
| OutputProcessor.Processor.Process | src/js/wh/processors/output/processor.js:20-41 | When the port state is `'connected'`, the port's log grows by the encoding of the whole buffer, with the origin computed once from `now`. Otherwise nothing is sent. The scan window parameters and `isEnabled` play no part. |
| OutputProcessor.Processor.SetEnabled | src/js/wh/processors/output/processor.js:43-45 | The enabled flag becomes the argument. Nothing else changes. |
| OutputProcessor.Processor.GetMIDIPortID | src/js/wh/processors/output/processor.js:47-49 | The result is always the port id given at construction; it is a constant field. |
| Connections3d.AddMissing | src/js/webgl/connections3d.js:262-267 | The creation pass only appends: the existing children stay in front, unchanged. |
| Connections3d.AddMissingNew | src/js/webgl/connections3d.js:101-111 | Each cable the creation pass adds is a fresh object with consecutive identities. Its name is an id that had no cable, and its delete button has the connect-mode visibility. |
| Connections3d.AddMissingCovers | src/js/webgl/connections3d.js:263-266 | After the creation pass every connection id has a cable. |
| Connections3d.AddMissingOrder | src/js/webgl/connections3d.js:263-267 | New cables are appended in the order of their ids' first occurrence in `allIds`. |
| Connections3d.AddMissingNoop | src/js/webgl/connections3d.js:264 | When every id already has a cable, the creation pass adds nothing. |
| Connections3d.Prune | src/js/webgl/connections3d.js:253-260 | The removal pass keeps exactly the children whose name is a connection id, and never grows the group. |
| Connections3d.Reconciled | src/js/webgl/connections3d.js:253-267 | After the removal and creation passes, every cable name is a connection id and every connection id has a cable. |
| Connections3d.Without | src/js/webgl/connections3d.js:46-47 | Removing an object from the group keeps exactly the other children. |
| Connections3d.Toggled | src/js/webgl/connections3d.js:234-241 | The visibility loop keeps the group's length and every child's identity and name. |
| Connections3d.UpdateCablesCorrect | src/js/webgl/connections3d.js:247-268 | After `updateCables`, every cable name is a connection id and every id has a cable. No two cables share a name, so an id listed twice still gets one cable. |
| Connections3d.UpdateCablesOrder | src/js/webgl/connections3d.js:253-267 | Surviving cables come first, in their old relative order. The new cables follow in `allIds` order. |
| Connections3d.ReconcileFixed | src/js/webgl/connections3d.js:253-267 | A group whose names are all ids, with a cable for every id, is left exactly as it is. |
| Connections3d.UpdateCablesIdempotent | src/js/webgl/connections3d.js:247-268 | A second `updateCables` with the same state changes nothing, whatever the group held before the first and whatever identities the second would hand out. |
| Connections3d.FirstWithoutButton | src/js/webgl/connections3d.js:237-239 | Gives the index of the first child without a delete button, which is where the visibility loop throws. All children before it have a button. |
| Connections3d.ToggledSpec | src/js/webgl/connections3d.js:234-241 | The children before the first one without a delete button get visibility `connectModeActive`, so when every child has a button all of them do. It keeps identities and names. The children from the first one without a button onwards are untouched. |
| Connections3d.CablesToDraw | src/js/webgl/connections3d.js:171-191 | `drawCables` draws a connection exactly when it is listed and both its source and destination processors exist. |
| Connections3d.DragStartChildren | src/js/webgl/connections3d.js:68-76 | Adding the fresh cable appends it. Re-adding the drag handle moves the handle to the end, and the group stays well formed. |
| Connections3d.CableEditor.constructor | src/js/webgl/connections3d.js:16-23 | Authoring starts with no source, no dragged cable, no cables and no dispatched actions. |
| Connections3d.CableEditor.DragStartConnection | src/js/webgl/connections3d.js:68-76 | Records all three source fields. Appends a new `currentCable`, then the drag handle (moved to the end), placed at the source position. Dispatches nothing. |
| Connections3d.CableEditor.DragMoveConnection | src/js/webgl/connections3d.js:54-60 | Only the drag handle moves. The authoring state, the group and the action log are unchanged. |
| Connections3d.CableEditor.DragEndConnection | src/js/webgl/connections3d.js:44-48 | Removes exactly the dragged cable and the drag handle. Every other child stays. Nothing is dispatched and the authoring state is unchanged. |
| Connections3d.CableEditor.CreateConnection | src/js/webgl/connections3d.js:30-39 | Dispatches exactly one `connectProcessors` action, from the recorded source to the given destination. Afterwards both source ids are cleared and the source position is kept. |
| Connections3d.CableEditor.UpdateCables | src/js/webgl/connections3d.js:247-268 | The new group is the reconciliation of the old one, and fresh identities are used for the new cables. |
| Connections3d.CableEditor.RemoveStaleCables | src/js/webgl/connections3d.js:253-260 | The backward removal loop leaves exactly the children whose name is a connection id, in order. |
| Connections3d.CableEditor.CreateMissingCables | src/js/webgl/connections3d.js:262-267 | The `forEach` over the ids produces the creation pass. |
| Connections3d.CableEditor.HasNameLoop | src/js/webgl/connections3d.js:264 | The child-by-child name search finds a name exactly when some child has it. |
| Connections3d.CableEditor.ToggleConnectMode | src/js/webgl/connections3d.js:234-241 | The group becomes the toggled group. `ok` is false exactly when some child has no delete button. |
| Connections3d.CableEditor.HandleStateChanges | src/js/webgl/connections3d.js:197-228 | Toggle and theme actions only toggle. Delete, connect and disconnect reconcile, then draw. The two drag actions only draw. Create-project reconciles, draws, then toggles. Any other action changes nothing. |
| Midi.RequestAccess | static/js/wh/midi/midi.js:38-54 | Success exactly when access is granted with at least one input or output port. Failure when the API is missing or no port exists. A rejection throws. |
| Midi.RejectionIsNotReported | static/js/wh/midi/midi.js:48-50 | A rejected request is the only case that reaches neither callback. |
| Midi.RequestAccessIntended | static/js/wh/midi/midi.js:48-50 | The corrected handler always reaches a callback. It agrees with `requestAccess` except that a rejection is reported as a failure. |
| Midi.LastMatchSpec | static/js/wh/midi/midi.js:148-157 | A selection finds a port exactly when some port has the id. The port found is the one of highest index with that id. |
| Midi.LastMatch | static/js/wh/midi/midi.js:148-157 | A port found by a selection has the selected id. |
| Midi.ReselectPlan | static/js/wh/midi/midi.js:101-106 | The reselection throws exactly when the input id is known and the output id is not. The output is reselected exactly when its id is a non-empty string. The input is reselected only when its id is known and the output is reselected too. |
| Midi.SelectionRoundTrip | static/js/wh/midi/midi.js:219-225 | After a selection of `id`, the preferences report `id` exactly when `id` is empty or names a port. |
| Midi.SelectCallsEmpty | static/js/wh/midi/midi.js:150-156 | A selection tells the preferences view and the network something exactly when a port matches. It never addresses the transport. |
| Midi.PortViewCalls | static/js/wh/midi/midi.js:113-139 | One preferences-view creation per port, in port order. |
| Midi.ReselectPlanDiscrepancy | static/js/wh/midi/midi.js:101 | As written, a known input id is not reselected when the output id is empty. When the output id is unknown, the guard throws. |
| Midi.ReselectPlanIntendedSpec | static/js/wh/midi/midi.js:101-106 | The intended guards treat input and output alike, and each reads only its own id. The written guards agree with them exactly when the input id is unknown, or when both ids are known and are both empty or both non-empty. |
| Midi.MidiController.constructor | static/js/wh/midi/midi.js:18-26 | No access, no ports, nothing selected, flags off, no calls made. |
| Midi.MidiController.ScanPorts | static/js/wh/midi/midi.js:148-157 | The selection loop ends on the last matching port, or none. It makes two calls per matching port, in order. |
| Midi.MidiController.SelectInputByID | static/js/wh/midi/midi.js:145-159 | The id is always stored. Without access the selected input is unchanged. With access it becomes the last input port with that id, or none. |
| Midi.MidiController.SelectOutputByID | static/js/wh/midi/midi.js:165-179 | Same as the input selection, for the output ports. |
| Midi.MidiController.SetClockInEnabled | static/js/wh/midi/midi.js:185-193 | Stores the flag and tells the controls and the preferences view. The transport is told only when the flag is off or an input is selected. The transport is never asked to follow an external clock without an input, which is a class invariant. |
| Midi.MidiController.SetNoteInEnabled | static/js/wh/midi/midi.js:199-202 | Stores the flag and tells the preferences view. |
| Midi.MidiController.SetData | static/js/wh/midi/midi.js:208-213 | Applies the input, output, clock-in and note-in settings, in that order. The call log grows by the two selections' calls (none without access), then the clock-in calls, then the note-in call. With access, and ids that are empty or name ports, `getData` afterwards returns the same record. |
| Midi.MidiController.GetData | static/js/wh/midi/midi.js:219-226 | A non-empty reported id means a port is selected, and that port's id is the stored selected id. |
| Midi.MidiController.OnAccessSuccess | static/js/wh/midi/midi.js:68-107 | Stores the access object. Appends one input model per input port, then one output model per output port, in iteration order. Then reselects with the guards as written. The handler fails exactly when the input guard throws. |
| Midi.MidiController.Reselect | static/js/wh/midi/midi.js:100-106 | Keeps the stored ids. Reselects the input, then the output, with the guards as written, and makes exactly those selections' calls. `ok` is false exactly when the input guard throws, and then nothing is reselected. |
| Midi.MidiController.CreateInputs | static/js/wh/midi/midi.js:74-86 | The input loop creates every input port's model and view, in order. |
| Midi.MidiController.CreateOutputs | static/js/wh/midi/midi.js:88-98 | The output loop creates every output port's model and view, in order. |
| Midi.MidiController.CreateInput | static/js/wh/midi/midi.js:113-123 | One input model is appended and one input port view is created. |
| Midi.MidiController.CreateOutput | static/js/wh/midi/midi.js:129-139 | One output model is appended and one output port view is created. |
| Midi.MidiController.Setup | static/js/wh/midi/midi.js:28-30 | Runs the success handler only when the request succeeds, with that handler's whole effect: the ports appended, the ids and flags kept, the reselection with the guards as written, and the calls in order. `ok` is false exactly when the input guard throws. Otherwise no field changes. |
| AppView.LastIndexFor | static/js/wh/view/view.app.js:34-41 | Finds the highest index of a view for the processor, with none above it. It finds none exactly when no view has that processor. |
| AppView.RemoveAt | static/js/wh/view/view.app.js:38 | Splicing removes one view. Views before the index keep their place and later views move down by one. |
| AppView.RemoveAtCount | static/js/wh/view/view.app.js:38 | Splicing one view out takes exactly one view from that view's processor and no view from any other processor. |
| AppView.RemoveAtGone | static/js/wh/view/view.app.js:38 | When every view has its own serial, the view spliced out is no longer in the list. |
| AppView.CountForPositive | static/js/wh/view/view.app.js:33-42 | A processor has views exactly when a deletion finds one. |
| AppView.AppView.constructor | static/js/wh/view/view.app.js:15 | The registry starts empty. |
| AppView.AppView.CreateSettingsView | static/js/wh/view/view.app.js:21-27 | Appends exactly one new view for the processor, whose view count grows by one. |
| AppView.AppView.DeleteSettingsView | static/js/wh/view/view.app.js:33-42 | Removes only the highest-index view for the processor, keeping the order of the others, and terminates only that view, which is then no longer in the list. Returns `false`, and the processor's view count drops by one. Without a match nothing changes and the result is `undefined`. |
| AppView.AppView.CreateMIDIPortView | static/js/wh/view/view.app.js:44-46 | Changes nothing and returns `undefined`. |
| AppView.AppView.DeleteMIDIPortView | static/js/wh/view/view.app.js:48-50 | Changes nothing and returns `undefined`. |

## Left out

- Host I/O is not modelled:
  - The Web MIDI promise is modelled as `Setup` running its handlers at once, in order.
  - The port maps and iterators are sequences.
  - `midiOutput.send` is an appended message log.
  - Calls to the preferences view, the controls view, the MIDI network, the transport and `console.log` are a recorded call log, or are dropped (the logging).
- `performance.now()` and `my.getInputData()` are parameters of `Process`. Timestamps are exact `real` arithmetic, not IEEE doubles.
- Message values are unbounded integers. The processor does no range checking, so none is modelled. `MessageRoundTrip` states the byte layout for valid events.
- `process` never reads the processor's enabled flag. The flag's name suggests it gates sending, but the model follows the code: `Process` ignores `isEnabled`.
- All THREE.js rendering is left out. That includes:
  - the Bezier cable shapes;
  - the delete-button placement;
  - theme colours (`updateTheme`, `setThemeColorRecursively`);
  - `geometry.dispose`.

  `HandleStateChanges` models `SET_THEME` and `CREATE_PROJECT` without their colour update.
- The cables group is lazily created in `updateCables`. The model's group exists from the start.
- `getObjectByName` checks the group itself first and then searches each cable's own sub-objects too. The model looks up names among the group's direct children only. Connection ids are therefore assumed to be non-empty, because the unnamed group itself matches `''` and the source never creates a cable for that id. They are also assumed not to clash with the delete button's part names. `AddMissingCovers`, `Reconciled` and `UpdateCablesCorrect` promise a cable for every id only under these assumptions.
- `drawCables` also reads connector positions to draw. The model records which connection ids are drawn, not where.
- `getCablesGroup`, `setup`'s event listener registration and the store's `dispatch` internals are not part of this model.
- `updateCables` gives new cables the store's `isConnectMode`, and `toggleConnectMode` reads `connectModeActive`. Both fields are kept as given.
- OutputProcessor.Processor: always holds a resolved port. `getMIDIPortByID` is not part of this model; a port id that resolves to nothing would make every `process` call throw when it reads the port's state.
- Connections3d.CablesToDraw: requires every listed connection id to have a connection record; `drawCables` throws at that lookup otherwise. The state has no connectors, so every listed connection's source and destination connectors are assumed to exist, as the graph's referential integrity guarantees; a missing connector would make `drawCables` throw on its position and stop drawing. `HandleStateChanges` requires the same only for the actions that draw.
- Connections3d.UpdateCablesCorrect: stated for groups with no two cables for the same connection id. `updateCables` itself produces such groups. A group that already held duplicates keeps them.
- Connections3d.CableEditor.DragMoveConnection: requires a drag to have started. The source throws on the missing cable or source position otherwise.
- Connections3d.CableEditor.DragEndConnection: requires a drag to have started, for the same reason.
- Midi.MidiController: `isClockInEnabled` and `isNoteInEnabled` start `undefined` in the source. The model starts them `false`, so `getData` before any setting reports `false` rather than `undefined`.
- The selected ids are always strings in the model. A `selectInputByID` with a non-string id is not modelled.
- The port models built by `createMIDIPortInput`/`createMIDIPortOutput` are represented by their ports.
- The `sysex` flag of the access request is not modelled.
- The settings views' own construction and DOM work are recorded only as a terminate log. Processors are compared by identity, represented as a number.

## Findings

| source | as written | input that shows it | evidently intended | confidence | as-written member | corrected member |
|---|---|---|---|---|---|---|
| static/js/wh/midi/midi.js:101 | The input reselection guard tests `typeof selectedInputID === 'string'` but then takes `selectedOutputID.length`. | `selectedInputID = 'in'` with `selectedOutputID = ''`: the known input is not reselected. With `selectedOutputID` undefined, reading `.length` throws and the output is not reselected either. | `selectedInputID.length`, mirroring the output guard on line 104. | high, not executed | Midi.ReselectPlanDiscrepancy | Midi.ReselectPlanIntendedSpec |
| static/js/wh/midi/midi.js:48-50 | The rejection handler of the access promise passes an undeclared `errorMsg` to the failure callback. | The host rejects the access request: evaluating `errorMsg` throws a ReferenceError inside the handler, so the failure callback is never called. | Call the failure callback with the rejection message. | high, not executed | Midi.RejectionIsNotReported | Midi.RequestAccessIntended |

`Midi.MidiController.OnAccessSuccess` and `Midi.MidiController.Setup` follow the code as written. They use `ReselectPlan` and `RequestAccess`. The corrected definitions and their properties appear beside them.
