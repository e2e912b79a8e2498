# HTC Vive to MIDI: a Dafny model of the translation core

The program reads events and controller poses from the OpenVR runtime and
sends MIDI messages that drive puppet animation. This project models the
pure translation logic of `HtcProgram.cs` and proves what it promises:

- **Button router.** A button event from a hand controller becomes at most
  one note message. The left hand uses notes 10..14 and the right hand
  20..24. The five controls are menu, grip, touchpad press, touchpad touch
  and trigger, at offsets 0..4. Press and touch switch a note on with
  velocity 127. Unpress and untouch switch it off, sent as a note-on with
  velocity 0.
- **Position normaliser.** A coordinate is mapped linearly onto 0..127,
  truncated toward zero and clamped. The x value is mirrored as `127 - v`.
- **Controller selector.** For a usable pose, the left hand sends
  controllers 1 (x) and 2 (y) and the right hand 3 (x) and 4 (y). The
  enablement setting picks which ones are sent, and it is compared by
  equality.
- **Frame loop.** A tick drains the whole event queue, then runs one
  tracking pass over the device table, then sleeps `1000 / fps` ms. A quit
  event only sets the exit flag, which the loop tests after the tick.
- **Startup.** It checks the argument count, device id, channel, frame
  rate and enablement keyword, then that the four bounds parse as floats,
  in that order.

Modules: `Results` (Option, Result), `Midi` (messages and how a receiver
reads them), `VrInput` (runtime answers as data), `Buttons`, `Normalize`,
`Settings`, `Tracking`, `Frame`, `Startup`.

This program uses note base 10 for the physical left hand and 20 for the
right. It sends touchpad notes directly from touch and press events, and it
sends every enabled controller value on every tick.

## Model

| member | source | states |
|---|---|---|
| Midi.NoteOn | HtcProgram.cs:40-45 | a receiver reads the message as the note starting at full velocity 127, on the configured channel |
| Midi.NoteOff | HtcProgram.cs:47-53 | a receiver reads the message as the note stopping; it is a note-on command with velocity 0 |
| Midi.Controller | HtcProgram.cs:55-60 | a receiver reads the message as a control change of that number to that value; well-formed when the value is in 0..127 |
| Midi.NoteOnOffDifferOnlyInVelocity | HtcProgram.cs:40-53 | note-on and note-off of a note share command and note byte and mean different things |
| Buttons.HandOf | HtcProgram.cs:99-103 | only the LeftHand and RightHand roles have a hand |
| Buttons.NoteId | HtcProgram.cs:101-103 | left-hand notes lie in 10..14, right-hand notes in 20..24 |
| Buttons.NoteIdRoundTrip | HtcProgram.cs:101-187 | a note id reads back as the hand and control that produced it |
| Buttons.DecodeNoteSound | HtcProgram.cs:101-187 | the ids that read back are exactly 10..14 and 20..24, and each is the note of what it reads back as |
| Buttons.NoteIdInjective | HtcProgram.cs:101-187 | distinct hand/control pairs have distinct notes, so the hands never share a note |
| Buttons.ControlFor | HtcProgram.cs:105-188 | the chosen control sits on the event's button, is the touch control exactly for touch edges, and is on exactly for press and touch |
| Buttons.Route | HtcProgram.cs:87-192 | a message is produced exactly for a button event of a controller in a hand role on one of the four buttons, touch edges only on the touchpad; the message announces that hand, control and edge |
| Buttons.RoutedNoteRange | HtcProgram.cs:101-187 | every routed note of the left hand is in 10..14 and of the right hand in 20..24 |
| Buttons.ReleaseMatchesPress | HtcProgram.cs:107-187 | unpress (untouch) of a button stops the same note its press (touch) starts |
| Normalize.Truncate | HtcProgram.cs:266 | the integer cast rounds toward zero: the result is within 1 of the real and not further from zero |
| Normalize.NormalizeControllerValue | HtcProgram.cs:264-270 | the result is in 0..127; coordinates at or below min give 0 and at or above max give 127, mirrored for reversed bounds |
| Normalize.ScaledBounds | HtcProgram.cs:266 | a coordinate outside the bounds scales to at most 0 or at least 127 |
| Normalize.NormalizeBucket | HtcProgram.cs:264-270 | for 0 <= r < 127 the result is r exactly when the coordinate lies in the r-th of 127 equal-width buckets between min and max (bucket 0 also takes everything below min); 127 is reached only at or above max |
| Normalize.NormalizeMonotone | HtcProgram.cs:264-270 | the result never decreases as the coordinate grows |
| Normalize.MirroredValue | HtcProgram.cs:219 | the x value sent is 127 minus the normalised coordinate, in 0..127, 127 at or below min and 0 at or above max |
| Normalize.MirroredAntitone | HtcProgram.cs:219 | the x value sent never increases as the coordinate grows |
| Settings.FrameDelay | HtcProgram.cs:257 | for fps in 1..100 the pause `1000 / fps` lies in 10..1000 and is the integer quotient |
| Tracking.SelectControllers | HtcProgram.cs:229-250 | the left hand sends only 1 and 2 and the right hand only 3 and 4, x before y |
| Tracking.SelectionMatchesMask | HtcProgram.cs:13 | comparing the setting for equality selects a controller exactly when its declared flag bit is set |
| Tracking.EnablementModes | HtcProgram.cs:229-250 | All sends 1, 2, 3, 4; None sends nothing; each single-axis setting sends only its own controller |
| Tracking.UsablePose | HtcProgram.cs:199-214 | a pose is used exactly for a connected controller whose state query succeeded, in a hand role, with a connected and valid pose |
| Tracking.AxisValue | HtcProgram.cs:219-220 | x controllers carry the mirrored normalised m3 and y controllers the plain normalised m7, both in 0..127 |
| Tracking.ControllerMessages | HtcProgram.cs:233-248 | one control change per selected number, in order, carrying that number's axis value |
| Tracking.TrackDevice | HtcProgram.cs:199-254 | an unusable entry sends nothing; a usable one sends one well-formed control change per enabled controller of its hand |
| Tracking.TrackDeviceShape | HtcProgram.cs:229-250 | a left-hand entry sends only controllers 1 then 2, a right-hand entry only 3 then 4, values in 0..127 |
| Tracking.TrackingPass | HtcProgram.cs:196-255 | the pass sends only well-formed control changes, at most two per device |
| Tracking.RunTrackingPass | HtcProgram.cs:197-255 | the device-table loop sends the messages of every entry, in table order |
| Frame.HandleEvent | HtcProgram.cs:76-193 | a quit-type event raises the exit flag and sends nothing; any other event sends what routing gives it |
| Frame.QuitRequestedMeans | HtcProgram.cs:76-85 | the exit flag's scan finds a quit event exactly when one of the four quit types is queued somewhere |
| Frame.DrainMessages | HtcProgram.cs:73-194 | a drain sends at most one message per event, all well-formed note messages |
| Frame.DrainAppend | HtcProgram.cs:73-194 | draining two queues one after the other sends what each sends, in order |
| Frame.QuitDoesNotStopDrain | HtcProgram.cs:74-85 | a quit event sends nothing and the events after it are still routed |
| Frame.DrainQueue | HtcProgram.cs:73-194 | the polling loop routes every queued event and raises the exit flag exactly when a quit event was queued |
| Frame.Tick | HtcProgram.cs:69-258 | a tick sends the drained notes then the tracking pass, exits exactly when the queue held a quit event, and sleeps 10..1000 ms |
| Frame.NotesBeforeControllers | HtcProgram.cs:73-255 | a tick's messages split at one point: drained note messages before it, tracking-pass control changes after it |
| Frame.QuitCompletesTick | HtcProgram.cs:74-258 | with a quit event queued, the tick still routes the later events and runs the tracking pass |
| Frame.Run | HtcProgram.cs:68-258 | the loop runs at most the frames given, at least one tick before an exit, and pauses `1000 / fps` ms once after every tick, the last included |
| Frame.RunEndsOnQuit | HtcProgram.cs:68-258 | the loop ends only on a frame whose queue held a quit event, and without one runs every frame |
| Frame.RunPassesQuietFrames | HtcProgram.cs:68-258 | every frame before the last one run held no quit event |
| Frame.RunReachesQuit | HtcProgram.cs:68-258 | a quit event queued in some frame ends the loop at that frame or earlier |
| Frame.RunSendsTicks | HtcProgram.cs:68-258 | the loop sends exactly the messages of the ticks it ran, in order |
| Frame.Session | HtcProgram.cs:277-292 | a failed runtime initialisation is an error; otherwise the result is the run of the frame loop over the frames |
| Startup.ParseEnablement | HtcProgram.cs:333-344 | exactly the six keywords are accepted, each mapped to the setting it names |
| Startup.KeywordRoundTrip | HtcProgram.cs:335-342 | every setting's keyword parses back to that setting |
| Startup.ParseArguments | HtcProgram.cs:306-362 | startup succeeds exactly with 8 arguments, a device id below the device count, channel 0..15, fps 1..100, a known keyword and four floats, and then carries those values |
| Startup.AcceptedSettingsUsable | HtcProgram.cs:322-331 | an accepted command line gives a MIDI channel and a pause `1000 / fps` in 10..1000 ms |
| Startup.EqualBoundsAccepted | HtcProgram.cs:346-362 | startup accepts equal min and max bounds, which the loop cannot normalise with |

## Left out

- OpenVR initialisation and shutdown: `Frame.Session` takes the outcome of initialisation as a flag; shutdown has no observable effect here.
- Event polling: the queue drained in a tick is given as a sequence of events, each with the device class and role the runtime reports for its device.
- The device enumeration: the device table is a sequence of entries in index order. Its length is not fixed to the runtime's maximum device count.
- The pose matrix: only its connection and validity flags and the cells m3 and m7 are modelled. The rotation cells are never read by this file.
- MIDI output: messages are returned as a sequence instead of sent. The library's range checks are not modelled; every message the model sends is proved well-formed instead.
- Console output, including the debug lines printed when fps is below 8.
- `Thread.Sleep`: the pause is returned as a number of milliseconds. The five-second pause before an exit is not modelled.
- Integer and float parsing, and the MIDI device count, are parameters of `Startup.ParseArguments`.
- `Environment.Exit` in the usage and initialisation paths is an `Err` result.
- Floats are reals. NaN, infinities and rounding are not modelled.
- Normalize.NormalizeControllerValue: requires min and max to differ. With equal bounds the source divides by zero in floating point, and the cast of the result is platform-specific.
- Normalize.Truncate: scaled values outside the 32-bit integer range are truncated as unbounded integers. C# leaves such a cast's result unspecified.
- Startup and the frame loop are not composed into one function. Startup accepts equal bounds, as `Startup.EqualBoundsAccepted` shows, and the frame loop requires them to differ.
- Palm-direction and touchpad-zone classification and repeated-value suppression are not modelled, because this program does not do them.
