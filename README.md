# ayumi-lv2: the MIDI decoder and the block render loop

This project models the core of the ayumi LV2 instrument plugin (`ayumi-lv2.c`).
The plugin drives three voices of the ayumi AY-3-8910 / YM2149 emulator from MIDI.

The model covers:

- the plugin handle: its per-voice mixer bytes and note gates, its envelope period and its pitch bend;
- what `ayumi_lv2_instantiate`, `ayumi_lv2_activate` and `ayumi_lv2_deactivate` do to the handle;
- the MIDI event decoder `ayumi_lv2_process_midi_event`;
- the block render loop `ayumi_lv2_run`.

The synthesis engine itself is opaque. Every call the plugin makes into it is recorded, in order, as an `Engine.Command`. The engine's sample clock is a counter. The value of the k-th sample it renders is modelled as k, so an output buffer shows which sample each frame received.

The modules:

- `Midi` holds bytes (`bv8`), the status-byte fields, the message-type and controller constants, and bit extraction.
- `Engine` holds the engine calls, the calls that render samples, and the set-up calls made at instantiation.
- `Decoder` holds the decoder as pure functions: `Decode(state, message)` gives the new state and the engine calls. Lemmas state what each message does.
- `RenderLoop` holds the render loop as pure functions over the progress through a block (decoder state, frame cursor, calls so far), with lemmas on timing and sample counts. It also holds the same loop with frame times read as offsets, used for the finding below.
- `Plugin` holds the handle as a class, `Handle`, whose fields are updated in place. Each method is proved against the functions above.

Quirks of the code that the model keeps as written:

- Bank select (controller 0x00) takes its mixer switches from the controller number byte. That byte is 0, so the switches are always (0, 0, 0), and the voice's mixer byte becomes 0.
- A program change sends bit 7 of the *previous* mixer byte as the envelope switch. It stores the whole program byte, so the next note-on uses the program's bit 7.
- Pitch bend is stored as `first * 128 + second`, with the first data byte as the high part, and has no other effect.
- The handle's envelope period starts at 0, while the engine was given 0x40 at instantiation.
- The message type comes from `lv2_midi_message_type`, which lives in the LV2 MIDI header; that header is not part of this model. `Midi.MessageType` follows that header's definition. It gives the high nibble of statuses 0x80..0xEF, the byte itself for the system statuses 0xF0..0xFF other than 0xF4, 0xF5, 0xF7, 0xF9 and 0xFD, and 0 for those five and for data bytes.
- The C code reads `msg[1]` and `msg[2]` whatever the event's size. In the model, a byte past the end of the message reads as 0.

## Model

| member | source | states |
|---|---|---|
| Midi.MessageType | ayumi-lv2.c:99-99 | A status byte in 0x80..0xEF has its high nibble as its type. A status is of a handled type (note-off, note-on, controller, program, pitch bend) exactly when it is a channel voice status whose high nibble is that type. |
| Decoder.Initial | ayumi-lv2.c:42-52 | The state instantiation leaves: three voices, mixer bytes within 0..255, no gate set, and every voice's stored switches tone 0, noise 1, envelope 0 (bits 5, 6, 7 of `1 << 6`). |
| Engine.InstantiateCalls | ayumi-lv2.c:49-57 | Instantiation makes 17 calls, starting with configure(1, 2 MHz, rate) and noise 4. It renders no sample, and every argument is within the engine's ranges. |
| Engine.VoiceSetups | ayumi-lv2.c:50-57 | Setting up k voices makes 5k calls and renders no sample. For k <= 3 every argument is within range. |
| Engine.VoiceSetup | ayumi-lv2.c:52-56 | One voice's set-up makes 5 calls and renders no sample. For voices 0..2 every argument is within range. |
| Engine.SamplesShape | ayumi-lv2.c:187-189 | Rendering k frames makes 2k calls. For each frame i, call 2i advances the engine and call 2i + 1 removes DC. |
| Decoder.Decode | ayumi-lv2.c:92-99 | A message for a channel above 2, or of a type the switch does not handle, changes nothing and calls nothing. Any message keeps the state's shape and its mixer bytes in 0..255, renders no sample, passes the engine only arguments within its ranges, and leaves every other voice's mixer byte and note gate unchanged. |
| Decoder.VoiceMessage | ayumi-lv2.c:99-171 | The dispatch on message type has the same confinement, and an unhandled type is ignored. |
| Decoder.NoteOff | ayumi-lv2.c:100-105 | The note-off handler leaves every other voice's mixer byte and note gate unchanged and calls the engine within range. |
| Decoder.NoteOn | ayumi-lv2.c:109-118 | The note-on handler leaves every other voice's mixer byte and note gate unchanged and calls the engine within range. |
| Decoder.ProgramChange | ayumi-lv2.c:119-129 | The program-change handler leaves every other voice's mixer byte and note gate unchanged, keeps the stored mixer bytes in 0..255, and passes a 5-bit noise period. |
| Decoder.ControlChange | ayumi-lv2.c:130-165 | Every controller leaves every other voice's mixer byte and note gate unchanged and passes in-range arguments: a volume of at most 14, a 4-bit envelope shape, a pan below 256. |
| Decoder.NoteOffGate | ayumi-lv2.c:100-108 | A note-off, or a note-on with velocity 0, clears the voice's gate and nothing else. It sends mixer (1, 1, 0) exactly when the voice was sounding, so a repeated note-off does nothing. |
| Decoder.NoteOnGate | ayumi-lv2.c:106-118 | A note-on with velocity > 0 sets the gate. A silent voice gets bits 5, 6 and 7 of its mixer byte as switches, then the key. A sounding voice gets nothing, so a repeated note-on does nothing. |
| Decoder.InitialNoteOn | ayumi-lv2.c:106-118 | From the state left by instantiation (mixer byte `1 << 6`), the first note-on on a voice sends switches (0, 1, 0) and the key. |
| Decoder.ProgramChangeStores | ayumi-lv2.c:119-129 | A program change sends noise period `program % 32` and switches (bit 5, bit 6 of the program, bit 7 of the old mixer byte), and stores the program as the voice's mixer byte. |
| Decoder.ProgramDispatch | ayumi-lv2.c:99-129 | A program-change status on voices 0..2 reaches the program handler. |
| Decoder.ProgramThenNoteOn | ayumi-lv2.c:106-129 | After a program change on a silent voice, the next note-on sends bits 5, 6 and 7 of that program. |
| Decoder.ControllerDispatch | ayumi-lv2.c:130-131 | A control-change status on voices 0..2 reaches the controller handler with the controller number and value. |
| Decoder.BankSelectClears | ayumi-lv2.c:132-139 | Bank select zeroes the voice's mixer byte and sends switches (0, 0, 0), whatever the value byte. |
| Decoder.RemoveDcAndPan | ayumi-lv2.c:140-163 | Pan forwards its value and changes no state. Controller 0x50 only asks the engine to remove DC. |
| Decoder.VolumeLevel | ayumi-lv2.c:143-145 | Main volume sends `value / 8` for values below 120, and 14 from 112 up; the level never exceeds 14 and no state changes. |
| Decoder.EnvelopeHighWrite | ayumi-lv2.c:146-149 | Controller 0x10 keeps bits 0-13 of the period, puts the value from bit 14 up, and sends the new period. |
| Decoder.EnvelopeMidWrite | ayumi-lv2.c:150-153 | Controller 0x11 with a 7-bit value sets bits 7-13, keeps bits 0-6 and 14-15, clears the rest, and sends the new period. |
| Decoder.EnvelopeLowWrite | ayumi-lv2.c:154-157 | Controller 0x12 with a 7-bit value sets bits 0-6, keeps bits 7-15, clears the rest, and sends the new period. |
| Decoder.EnvelopeMidLowRoundTrip | ayumi-lv2.c:150-157 | Writing the middle then the low seven bits of a 14-bit period rebuilds it in the low 14 bits, whatever the earlier period. |
| Decoder.EnvelopeRoundTrip | ayumi-lv2.c:146-157 | Writing the high, middle and low parts of any 16-bit period, in that order, leaves exactly that period. |
| Decoder.ShapeNibble | ayumi-lv2.c:158-160 | The envelope-shape controller sends `value % 16` and changes no state. |
| Decoder.UnassignedControllerIgnored | ayumi-lv2.c:131-164 | A controller number outside the eight handled ones changes nothing and calls nothing. |
| Decoder.PitchBendStored | ayumi-lv2.c:166-168 | Pitch bend makes no call and changes only the stored bend, which becomes `first * 128 + second` for any data bytes. For 7-bit data bytes the stored value is below 2^14 and gives both bytes back (`/ 128`, `% 128`). |
| Engine.StepsOfSamples | ayumi-lv2.c:187-189 | Rendering k frames (process, then remove DC, per frame) renders exactly k samples in 2k calls. |
| RenderLoop.Flush | ayumi-lv2.c:184-194 | Before an event the cursor moves forward, never past the block end, and the engine renders exactly as many samples as the cursor moved. |
| RenderLoop.Dispatch | ayumi-lv2.c:195-197 | Dispatching an event renders nothing and keeps the cursor. |
| RenderLoop.Handled | ayumi-lv2.c:183-198 | After any number of events the cursor stays within the block. |
| RenderLoop.HandledCursor | ayumi-lv2.c:183-198 | After k events the cursor is min(n, sum of the first k frame times). |
| RenderLoop.CursorMonotone | ayumi-lv2.c:183-198 | The cursor never moves backwards from one event to a later one. |
| RenderLoop.HandledSteps | ayumi-lv2.c:183-198 | After any number of events the engine has rendered exactly as many samples as the cursor says. |
| RenderLoop.DecodeTiming | ayumi-lv2.c:183-198 | Event k is decoded after exactly min(n, frames_0 + ... + frames_k) samples, and its engine calls directly follow them. |
| RenderLoop.SilentEvents | ayumi-lv2.c:184-197 | An event with frame time 0 renders nothing before it. An event that is not MIDI is not decoded and leaves the state as it was. |
| RenderLoop.Render | ayumi-lv2.c:181-205 | The whole block: the event loop, then the samples after the last event. It ends with the cursor at the block length n and a well-formed state. The calls and the sample count are stated by `RenderIsFlush` and `RenderSteps`. |
| RenderLoop.RenderIsFlush | ayumi-lv2.c:200-205 | The samples after the last event take the cursor to the end of the block. |
| RenderLoop.RenderSteps | ayumi-lv2.c:174-206 | A block of n frames renders exactly n samples, whatever its events. |
| RenderLoop.FlushTo | ayumi-lv2.c:184-186 | With frame times read as offsets, the cursor moves to the offset clamped to the block, never backwards, rendering as many samples as it moved. |
| RenderLoop.HandledAtOffsets | ayumi-lv2.c:183-198 | With frame times read as offsets, the cursor stays within the block. |
| RenderLoop.OffsetCursor | ayumi-lv2.c:183-198 | With frame times read as offsets and ordered, the cursor after k events is min(n, the k-th offset), and that many samples are rendered. |
| RenderLoop.OffsetTiming | ayumi-lv2.c:184-186 | With frame times read as offsets and ordered, event k is decoded after exactly min(n, its offset) samples. |
| RenderLoop.FrameSumCovers | ayumi-lv2.c:185-185 | The running sum of frame times covers the first frame time plus the last. |
| RenderLoop.DeltaTimingIsLate | ayumi-lv2.c:184-186 | For ordered frame times with a non-zero first one, every later event inside the block is decoded after more samples than its offset. |
| RenderLoop.DeltaTimingExample | ayumi-lv2.c:184-186 | A note-on at frame 40 and a note-off at frame 90 in a 100-frame block: the code decodes the note-off after 100 samples; the offsets place it after 90. |
| Plugin.Handle.constructor | ayumi-lv2.c:37-58 | A new handle is inactive, has every mixer byte `1 << 6`, no gates set, envelope and pitch bend 0. The engine has received, in order, configure(1, 2 MHz, rate), noise 4 and each voice's set-up; no sample is rendered. |
| Plugin.Handle.Activate | ayumi-lv2.c:80-83 | The handle becomes active and nothing else changes. |
| Plugin.Handle.Deactivate | ayumi-lv2.c:208-211 | The handle becomes inactive and nothing else changes. |
| Plugin.Handle.ProcessMidiEvent | ayumi-lv2.c:92-98 | The handle's state becomes `Decode(old state, message).state`, and the engine receives exactly `Decode`'s calls. |
| Plugin.Handle.VoiceMessage | ayumi-lv2.c:99-171 | The same, for the dispatch on message type. |
| Plugin.Handle.NoteOff | ayumi-lv2.c:100-105 | In place, the note-off handler does what `Decoder.NoteOff` says. |
| Plugin.Handle.NoteOn | ayumi-lv2.c:109-118 | In place, the note-on handler does what `Decoder.NoteOn` says. |
| Plugin.Handle.ProgramChange | ayumi-lv2.c:119-129 | In place, the program-change handler does what `Decoder.ProgramChange` says. |
| Plugin.Handle.ControlChange | ayumi-lv2.c:130-165 | In place, the controller handler does what `Decoder.ControlChange` says. |
| Plugin.Handle.BankSelect | ayumi-lv2.c:132-139 | In place, bank select does what `Decoder.ControlChange` says for controller 0. |
| Plugin.Handle.EnvelopeWrite | ayumi-lv2.c:146-157 | In place, controllers 0x10-0x12 do what `Decoder.ControlChange` says. |
| Plugin.Handle.ControllerCall | ayumi-lv2.c:140-163 | In place, the controllers that only forward to the engine do what `Decoder.ControlChange` says. |
| Plugin.Handle.RenderFrames | ayumi-lv2.c:187-192 | Rendering frames `from..to-1` renders `to - from` samples and writes the i-th of them to frame `from + i - 1` of both buffers. Every other frame is unchanged. |
| Plugin.Handle.Advance | ayumi-lv2.c:184-194 | The code before an event takes the handle and the buffers from progress p to `Flush(p)`. |
| Plugin.Handle.DecodeEvent | ayumi-lv2.c:195-197 | The code at an event takes the handle from progress q to `Dispatch(q, event)`. |
| Plugin.Handle.HandleEvent | ayumi-lv2.c:183-198 | One pass of the event loop takes the handle and the buffers from progress p to `Dispatch(Flush(p), event)`. |
| Plugin.Handle.Finish | ayumi-lv2.c:200-205 | The tail loop renders the rest of the block into both buffers. |
| Plugin.Handle.Run | ayumi-lv2.c:174-206 | An inactive handle changes nothing. An active one ends in `Render(old state, events, n)`'s state with its engine calls. The sample clock advances by n. Frame i of both buffers holds the (i + 1)-th sample of the block. Frames past n are untouched. |

## Left out

- The tone period: `ayumi_set_tone` receives `2000000 / (16 * key_to_freq(key))`, a floating-point value. `SetTone` records the MIDI key it is computed from; `key_to_freq` is not modelled.
- The pan position: the code passes `value / 128.0`. `SetPan` records the numerator.
- Output samples: the code stores the engine's floating-point left and right outputs. The model stores the index of the sample in the engine's sample clock.
- The ayumi engine (`ayumi.c`) is not part of this model. Its calls are recorded, not executed.
- LV2 plumbing is not part of the core: the URID-map feature lookup and its `assert`, `connect_port`, `cleanup`, `extension_data`, the descriptor, and the stored bundle path. The atom input port is a sequence of events; an event's body type matching the MIDI event URID is a boolean.
- The sample rate is passed to `Configure` as an integer; the truncation of the `double` is not modelled.
- Integer widths: frame times and the cursor are unbounded naturals. The overflow of `int max = currentFrame + ev->time.frames` and the mixed signed/unsigned comparison with `sample_count` are not modelled. The envelope period is a 32-bit bit-vector where the code has `int32_t`; every value it can take is below 2^23, so the two agree.
- Bytes past the end of a short message read as 0. The code reads whatever memory follows the message.
- Plugin.Handle.Run: follows the code as written, reading frame times as deltas. The corrected loop of the finding below is given as the functions `RenderLoop.FlushTo` and `RenderLoop.HandledAtOffsets`, not as a method of the handle.

## Findings

| source | as written | input that shows it | evidently intended | confidence | as-written member | corrected member |
|---|---|---|---|---|---|---|
| ayumi-lv2.c:184-186 | The event's frame time is added to the cursor, so it is read as a delta from the previous event. | A block of 100 frames with a note-on at frame 40 and a note-off at frame 90: the note-off is decoded after min(100, 40 + 90) = 100 samples. | An LV2 Atom sequence time stamp in frames is an offset from the start of the block, so the note-off is due after 90 samples. | not executed | RenderLoop.DeltaTimingExample | RenderLoop.OffsetTiming |
