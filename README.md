# FRC dashboard rendering and audio core, in Dafny

This project models the per-frame core of `gamedash.py`, a full-screen robot operator
dashboard. Every frame the dashboard reads telemetry values, then does the following:

- paints the canvas in the published colour;
- draws two lines of text in the inverted colour, each auto-sized and optionally flashing;
- frames the window with a border whose colour comes from the match-control word (FMSControlData);
- drives three sound cues through latch flags.

Modules:

- `Color` (color.dfy): the RGB triple and the text-colour inversion.
- `FmsBorder` (fms_border.dfy): the eight-entry control-word table. It is cross-checked against an independent bit-level decoding of the control word.
- `Flash` (flash.dfy): the flash rule, with time in whole milliseconds.
- `Chimes` (chimes.dfy): the audio latch controller. The class `ChimeController` holds the three flags the main loop keeps. Its `Step` method updates them in place and returns the commands (`Play1`, `Play2`, `Loop3`, `Stop3`). Pure step functions and trace functions specify `Step`, and the trace properties are proved about them.
- `FontFit` (font_fit.dfy): the downward font-size search. Font measurement is a parameter of type `(string, int) -> Extent`. The search is modelled twice: as the program writes it (no lower bound, cut off by fuel) and with a floor at size 1.
- `Layout` (layout.dfy): available space, the height bounds of the two fields, text centres, the label centre and the four border rectangles.
- `Dashboard` (dashboard.dfy): the plan of one frame, composed from the above.
- `Wrappers` (wrappers.dfy): the `Option` datatype.

Three facts about the code shape the model:

- The program does not clamp the RGB channels it reads. `InvertColor` takes any integers, and its range property is an if-and-only-if.
- Control word 51 is one of the attached codes, so the "FMS Connected" label is shown for it (`Dashboard.AutoAttachedFrame`).
- The font-size search has no minimum size. See "## Findings".

## Model

| member | source | states |
|---|---|---|
| `Color.InvertColor` | gamedash.py:99-100 | the result is in [0,255] per channel exactly when the input is; no channel is left unchanged, so the text never equals the canvas in any channel |
| `Color.InvertTwice` | gamedash.py:99-100 | inverting twice returns the original triple |
| `Color.InvertContrast` | gamedash.py:99-100 | canvas/text channel distance is abs(255 - 2c), at least 1, and exactly 1 only at 127 and 128 |
| `FmsBorder.EdgeColor` | gamedash.py:71-89 | attached is true iff the code is 48, 49, 51 or 53; 48/32 are red, 49/33 green, 51/35 blue, 53/37 yellow; every other code gives grey (169,169,169) and not attached; the colour is always in range |
| `FmsBorder.EdgeColorByBits` | gamedash.py:71-89 | for every integer, the table equals the bit reading of the control word: a recognised word (32 + 16·attached + phase bits 0/1/3/5) gets its phase colour and its attached bit; anything else gets grey and not attached |
| `FmsBorder.DecodeEncode` | gamedash.py:72-83 | decoding the code of any (phase, attached) pair gives that pair back |
| `FmsBorder.EncodeDecode` | gamedash.py:72-83 | every code that decodes is the code of the pair it decodes to |
| `FmsBorder.OneCodePerState` | gamedash.py:72-83 | two table codes that decode to the same (phase, attached) pair are equal: one code per pair |
| `Flash.TextVisible` | gamedash.py:93 | text is drawn iff it does not flash or the elapsed time modulo 500 ms is below 250 ms, equivalent to an even number of whole 250 ms intervals |
| `Flash.VisiblePeriodic` | gamedash.py:93 | visibility repeats every 500 ms |
| `Flash.VisibleInPeriod` | gamedash.py:93 | in every 500 ms period, flashing text is shown during exactly the first 250 ms |
| `Flash.SteadyAlwaysVisible` | gamedash.py:93 | non-flashing text is drawn at every instant |
| `Flash.FlashSamples` | gamedash.py:68 | flashing text is shown at 0 and 100 ms, hidden at 300 and 400 ms, shown at 500 and 600 ms |
| `Chimes.LatchStep` | gamedash.py:164-175 | the latch is set only while the trigger is up; a play happens only when the latch goes from clear to set with the sound loaded; with the sound loaded the latch equals the trigger and it plays iff the trigger rises; without the sound nothing plays and the latch is never newly set; with the trigger up and the sound missing nothing changes |
| `Chimes.LoopStep` | gamedash.py:178-183 | a loop starts if and only if the trigger is up, the sound is loaded and nothing plays; a stop happens if and only if the trigger is down and the cue plays; a trigger equal to the flag gives no action; with the sound loaded the flag equals the trigger; the flag is never set without the sound |
| `Chimes.Next` | gamedash.py:163-183 | after a frame, the flag of every cue whose sound loaded equals that cue's trigger; the flag of a cue whose sound is missing stays set only while its trigger stays up, and is never newly set |
| `Chimes.Commands` | gamedash.py:163-183 | at most three commands per frame; Play1/Play2 appear iff their trigger is up, their latch clear and their sound loaded; Loop3 appears iff the trigger is up, nothing plays and the sound is loaded; Stop3 appears iff the trigger is down and the cue plays; triggers equal to all flags give no command |
| `Chimes.ChimeController.constructor` | gamedash.py:119-121 | all three flags start false |
| `Chimes.ChimeController.Step` | gamedash.py:163-183 | the new flags are `Next` of the old flags and the commands are `Commands` of the old flags, for the frame's triggers and loaded sounds |
| `Chimes.ChimeController.RunFrames` | gamedash.py:163-183 | running frame after frame leaves the flags at `StateAfter` and yields the commands `Emitted` over the whole trace |
| `Chimes.FlagFollowsTrigger` | gamedash.py:164-183 | with a cue's sound loaded, its flag after a trace equals its trigger in the last frame |
| `Chimes.CommandsOnce` | gamedash.py:163-183 | no command occurs twice in one frame |
| `Chimes.PlayInCommands` | gamedash.py:164-175 | cue 1's (or 2's) play command is issued iff its trigger is up, its latch clear and its sound loaded |
| `Chimes.LoopInCommands` | gamedash.py:178-183 | cue 3's start is issued iff the trigger is up, nothing plays and the sound is loaded; its stop iff the trigger is down and it plays |
| `Chimes.PlaysEqualRisingEdges` | gamedash.py:164-175 | with the sound loaded, the number of plays of cue 1 (or 2) over any trace equals the number of rising edges of its trigger |
| `Chimes.HeldTriggerNeverReplays` | gamedash.py:164-175 | a frame whose trigger was already up in the previous frame issues no play for that cue |
| `Chimes.MissingSoundNeverPlays` | gamedash.py:164-175 | a cue whose sound did not load never plays over any trace |
| `Chimes.MissingLoopNeverPlays` | gamedash.py:178-183 | without its sound, cue 3 starting from not playing is never marked playing and never issues a start or a stop, so the stop of line 182 is never reached on a sound that did not load |
| `Chimes.LoopsEqualRisingEdges` | gamedash.py:178-180 | with the sound loaded, cue 3 starts looping exactly once per rising edge of its trigger over any trace |
| `Chimes.StopsEqualFallingEdges` | gamedash.py:181-183 | with the sound loaded, cue 3 stops exactly once per falling edge of its trigger over any trace |
| `Chimes.LoopStopAlternate` | gamedash.py:178-183 | over any trace, starts plus the initial flag equal stops plus the final flag: starts and stops never differ by more than one |
| `Chimes.EdgeSample` | gamedash.py:164-168 | trigger trace false, true, true, false, true on cue 1 yields exactly two plays |
| `Chimes.LoopSample` | gamedash.py:178-183 | trigger trace false, true, true, false, true, true, false on cue 3 yields start, stop, start, stop |
| `FontFit.ScanAsWritten` | gamedash.py:103-116 | the unbounded scan, when it stops, stops at a fitting size no larger than the start, and no size between that and the start fits: it is the first fitting size scanning down |
| `FontFit.AsWrittenStops` | gamedash.py:110-114 | when some size at or below the start fits, the unbounded scan stops within the number of steps needed to reach that size |
| `FontFit.AsWrittenNeverStops` | gamedash.py:110-114 | when no size at or below the start fits, the unbounded scan does not stop within any number of steps |
| `FontFit.NegativeBoundNeverStops` | gamedash.py:110-114 | a negative height bound, with heights never negative, makes the unbounded scan run forever |
| `FontFit.FittedSize` | gamedash.py:103-116 | the result never exceeds the base; it is the base if the text fits there; no size strictly between the result and the base fits; the result fits or is the floor (or the base is already below the floor); it is at least the floor when the base is. Together: the largest fitting size at or below the base, else the floor |
| `FontFit.DynamicFontSize` | gamedash.py:103-116 | the loop with the floor returns `FittedSize` |
| `FontFit.FloorAgreesWithProgram` | gamedash.py:103-116 | wherever the program's loop stops at or above size 1, the floored search returns the same size |
| `FontFit.ProgramAgreesWithFloor` | gamedash.py:103-116 | when some size between 1 and the base fits, the program's loop finishes, and the floored search returns the size it finishes at |
| `FontFit.FittedSizeMonotone` | gamedash.py:103-116 | a text measuring at least as large at every size never gets a larger font |
| `Layout.AvailableBetweenBorders` | gamedash.py:189-190 | the available width is the gap between the left and right border rectangles, the available height the gap between the top and bottom ones |
| `Layout.LargeMaxHeight` | gamedash.py:193 | the large field's bound is the floor of half the available height, also when negative |
| `Layout.SmallMaxHeight` | gamedash.py:194 | the small field's bound is the floor of a quarter of the available height, also when negative |
| `Layout.FieldsShareHeight` | gamedash.py:193-194 | when the available height is non-negative, the two bounds together do not exceed it |
| `Layout.BorderRects` | gamedash.py:203-206 | four rectangles, each one border width thick |
| `Layout.BorderIsBand` | gamedash.py:203-206 | a pixel of the window is painted by some border rectangle iff it lies within 50 px of a side |
| `Layout.LargeTextCenter` | gamedash.py:197 | the large text is centred horizontally (x is half the window width, rounded down) and its centre lies above the vertical middle |
| `Layout.SmallTextCenter` | gamedash.py:197-200 | the small text shares the large text's horizontal centre and sits 100 px below it |
| `Layout.CenteredTextClearsSides` | gamedash.py:189-197 | text no wider than the available width, centred horizontally, stays clear of the left and right bands |
| `Layout.LabelCenter` | gamedash.py:212 | the label centre is the centre of the bottom border rectangle, and lies inside it |
| `Dashboard.PlanFrame` | gamedash.py:136-213 | canvas is the snapshot colour and text its inverse; the border style is the table entry of the control word and the label is shown iff the code is an attached one; each field's visibility is the flash rule; the borders are the four border rectangles; each font size is the fitted size for its field's bounds and base, so lies between 1 and the base and fits or is the floor; steady text is visible |
| `Dashboard.AutoAttachedFrame` | gamedash.py:139-213 | green canvas, steady "AUTO" and code 51 give magenta text that is drawn, a blue attached border and the label |
| `Dashboard.ShortWindowNeverStops` | gamedash.py:190-193 | a window 80 px tall gives a large-field bound of -10, on which the program's loop never stops and the floored search returns size 1 |

## Left out

- Pygame and mixer initialisation, display sizing and window creation: library calls. Screen width and height are parameters.
- NetworkTables client setup, subscriptions, `get()` and `flush()`: network I/O. A frame's telemetry is a `Snapshot` value.
- `load_sound`: filesystem and decoder I/O. Only its outcome is kept, as one "loaded" boolean per cue.
- Font rendering, blitting, `pygame.draw.rect` and `display.flip`: foreign rasterisation. Only the size search, rectangles and centres are kept. Font measurement is an arbitrary function parameter, and no monotonicity of it is assumed.
- The event loop, quit handling, `clock.tick(60)` and `time.time()`: wall-clock concerns. Elapsed time is a natural number of milliseconds, so float seconds and their rounding are not modelled. This also drops a clock that steps backwards: the elapsed time is then negative, and Python's `int()` rounds toward zero, so the visible window around 0 lasts 500 ms.
- Audio playback itself and its concurrency: commands are emitted values.
- `FontFit.ScanAsWritten`: does not model the unbounded loop directly. It takes a fuel bound, and non-termination is stated as "no result for any fuel".
- `Dashboard.PlanFrame`: plans a frame for any integer channels. In the program, a channel outside 0-255 reaches `screen.fill` and `font.render`, where pygame rejects the colour and the uncaught error ends the dashboard; that failure is pygame behaviour and is not modelled.
- `Dashboard.PlanFrame`: uses the floored font search, not the program's unbounded one (see Findings). The frame's drawing order and the chime step are not part of the plan.

## Findings

| source | as written | input that shows it | evidently intended | confidence | as-written member | corrected member |
|---|---|---|---|---|---|---|
| gamedash.py:110-114 | the font-size loop decrements with no lower bound and exits only when the text fits | a window under 100 px tall (height 80 gives a large-field bound of -10), or a text too wide at every size | stop at a minimum size (1) and accept overflow | not executed; high for the loop never exiting when no size fits | `Dashboard.ShortWindowNeverStops` | `FontFit.DynamicFontSize` |
