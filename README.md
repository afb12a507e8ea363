# Teleprompter, modelled in Dafny

TeleprompterJS is a browser teleprompter. A user loads a text file. Its blank-line separated
paragraphs are shown in a scroll container, and the text can be played (scrolled automatically at
an adjustable speed), scrolled by hand, resized and mirrored. The same controls are reachable from
a Bluetooth remote, whose buttons arrive as pairs of "down" and "up" characters.

The repository holds three versions of the page script, and each is modelled as written:

- `script.ts` (module `TeleprompterTs`): the remote-key table, mirroring, font size. The content
  is placed at `centerOffset` (half the container), but scrolls are checked against the limits
  top 0 and bottom `totalHeight - containerHeight`.
- `dist/script.js` (module `TeleprompterDist`): the later script. It adds:
  - speed and font size kept in local storage;
  - `calculateCenterOffset` recomputed on demand;
  - scroll limits widened by `centerOffset` on both sides;
  - re-anchoring after a font-size change;
  - mouse-wheel and touch scrolling.
- `script.js` (module `TeleprompterEarly`): the early script. It has no remote table and no
  mirroring. It keeps a set of raw keys held, scrolls by hand with y/Y (down) and j/J (up), and
  toggles play with space, q or Q.

Shared modules:

- `Paragraphs`: the paragraph formatter (split on `"\n\n"`, trim, drop empty, wrap in `<p>`, join).
- `Adjusters`: the clamped speed and font-size adjustments.
- `ScrollBounds`: the limit check of `scrollText`, and repeated scroll attempts.
- `RemoteKeys`: the remote table and the search of it.
- `Wrappers`: the option type.

Each script module is built the same way:

- `State` holds the script's closure variables and the page state they drive (the content, the
  content's offset, which buttons are enabled). Timers are booleans: "this interval is running".
- Every handler is a function from `State` to `State`.
- `Step` dispatches one page event (click, key, file load, wheel, touch, or a tick of a running
  interval), and `Run` folds `Step` over a sequence of events. Each event carries the page
  geometry (content height, container height) at the moment it is handled.
- `Inv` is the invariant every reachable state keeps. `StepKeepsInv` and `RunKeepsInv` prove it.
- Class `Prompter` holds the same handlers written against mutable fields, as the script does.
  Each method is proved to perform its transition: `Snap() == F(old(Snap()), ...)`.

Speed is kept as an integer number of tenths (1..50, default 10). Because the script rounds to
one decimal after every step of ±0.1, this is the same value.

## Model

| member | source | states |
|---|---|---|
| Paragraphs.Trim | script.ts:90 | the trimmed string is empty exactly when the input is all white space; otherwise it starts and ends with non-space |
| Paragraphs.Split | script.ts:89 | there is always at least one piece, and the first piece is a prefix of the input |
| Paragraphs.JoinSplit | script.ts:89 | joining the pieces of `split("\n\n")` with the separator gives back the input |
| Paragraphs.SplitHasNoSeparator | script.ts:89 | no piece contains the separator `"\n\n"` |
| Paragraphs.SplitJoin | script.ts:89 | splitting a join of separator-free pieces (none ending in a newline) gives back the pieces |
| Paragraphs.Block | script.ts:90-92 | one piece yields nothing exactly when it is all white space, and `<p>trimmed</p>` otherwise |
| Paragraphs.PipelineIsRender | script.ts:88-93 | the map/filter/map/join chain equals rendering each piece as its own block |
| Paragraphs.FormatIsPerPiece | script.ts:88-93 | the formatted content is the per-piece rendering of the split input, and blank pieces contribute nothing |
| Paragraphs.TrimCutsEnds | script.ts:90 | the trimmed string is a slice of the input with only white space cut off before and after it |
| Paragraphs.KeptCount | script.ts:90-91 | as many paragraphs are kept as there are pieces that are not blank |
| Paragraphs.KeptTrimmed | script.ts:90-91 | every kept paragraph is non-empty and is its own trim |
| Paragraphs.KeptPieces | script.ts:90-91 | the paragraphs kept are as many as the non-blank pieces, each non-empty and already trimmed |
| Paragraphs.ParagraphCount | script.ts:88-92 | the number of paragraphs shown is the number of non-blank pieces of the input, each trimmed and non-empty |
| Paragraphs.TrimmedIsFixed | script.ts:90 | trimming a string with non-space ends changes nothing |
| Paragraphs.KeepsTrimmed | script.ts:90-91 | already trimmed, non-empty paragraphs pass trim and filter unchanged |
| Paragraphs.FormatOfJoinedParagraphs | script.ts:88-93 | a text made of trimmed paragraphs separated by blank lines formats back to exactly those paragraphs, each wrapped |
| Adjusters.Clamp | script.ts:155 | the `Math.max(lo, Math.min(hi, x))` result lies in [lo, hi], is x inside it, and the nearer limit outside it |
| Adjusters.AdjustedSpeed | script.ts:155-156 | the new speed lies in [0.1, 5.0]; a step beyond a limit stays at the limit; a step within the limits is taken exactly |
| Adjusters.AdjustedFontSize | script.ts:169-170 | the new font size lies in [12, 72], stays even under even steps, and a step within the limits is taken exactly |
| Adjusters.TravelIsProduct | script.ts:154-156 | n repeated steps of d travel n·d |
| Adjusters.ClampStep | script.ts:155 | clamping after each step equals clamping once, as long as the step does not lead away from the range |
| Adjusters.PressedTravels | script.ts:154-156 | n presses from inside the range land where one clamp of the travelled distance lands |
| Adjusters.PressedIsOneClamp | script.ts:154-156 | n presses of d from inside the range equal one clamp of x + n·d |
| ScrollBounds.Attempt | script.ts:176-203 | a scroll is accepted exactly when it stays in the limits: a downward move strictly inside the bottom limit, an upward one at most the top limit, a zero move always; an accepted scroll moves by exactly the adjusted amount |
| ScrollBounds.AttemptStaysInBand | dist/script.js:180-206 | an offset between the two limits stays between them whatever is attempted |
| ScrollBounds.DownThenUp | script.ts:176-203 | an accepted step down followed by the same step up returns to the start |
| ScrollBounds.UpThenDown | script.ts:176-203 | an accepted step up from inside the bottom limit followed by the same step down returns to the start |
| ScrollBounds.RepeatMoves | script.ts:119-130 | n accepted attempts of the same amount move n times that amount and respect the limit in their direction |
| ScrollBounds.PlaybackStopsDown | script.ts:119-130 | n downward steps covering the distance to the bottom limit are not all accepted |
| ScrollBounds.PlaybackStopsUp | script.ts:119-130 | n upward steps covering the distance to the top limit are not all accepted |
| RemoteKeys.Index | script.ts:58-69 | every binding has a position in the table's order |
| RemoteKeys.Find | script.ts:252-264 | a match found from position i is a binding half whose character is the key |
| RemoteKeys.Decode | script.ts:252-264 | a match found is a binding half whose character is the key |
| RemoteKeys.DecodeDown | script.ts:254-258 | each binding's down character is found as that binding's down half |
| RemoteKeys.DecodeUp | script.ts:259-263 | each binding's up character is found as that binding's up half |
| RemoteKeys.DecodeCharOf | script.ts:252-264 | the search finds every binding half from its character |
| RemoteKeys.BindingsDistinct | script.ts:58-69 | no two binding halves share a character |
| RemoteKeys.BoundIffDecoded | script.ts:324-327 | a key is bound in the table exactly when the search finds it |
| RemoteKeys.SpaceUnbound | script.ts:330-333 | the space bar is not a remote character, so it reaches the keyboard fallback |
| RemoteKeys.Lookup | script.ts:251-265 | the loop over the table's entries returns what the search specifies, and a match carries the key |
| TeleprompterTs.PlayTicked | script.ts:122-128 | a refused tick stops playback and its timer; an accepted tick moves by the mirror-adjusted `-scrollSpeed` and changes nothing else |
| TeleprompterTs.KeyPressed | script.ts:280-313 | the key-down switch leaves `keysPressed` as it was |
| TeleprompterTs.KeyReleased | script.ts:269-278 | the key-up branch leaves `keysPressed` as it was |
| TeleprompterTs.InitInv | script.ts:42-49 | the start state satisfies the invariant, with play and mirror disabled |
| TeleprompterTs.KeyPressedRestoresInv | script.ts:280-313 | a key action whose key is already marked held restores the invariant |
| TeleprompterTs.DownCharKeepsInv | script.ts:254-258 | handling a down character keeps the invariant |
| TeleprompterTs.UpCharKeepsInv | script.ts:259-263 | handling an up character keeps the invariant |
| TeleprompterTs.DispatchedKeepsInv | script.ts:251-265 | every outcome of the table search keeps the invariant |
| TeleprompterTs.RemoteKeyKeepsInv | script.ts:251-265 | `handleRemoteKey` keeps the invariant |
| TeleprompterTs.KeyDownKeepsInv | script.ts:317-335 | the keydown listener keeps the invariant |
| TeleprompterTs.PlayTickKeepsInv | script.ts:122-128 | a playback tick keeps the invariant |
| TeleprompterTs.ManualTickKeepsInv | script.ts:209-218 | a manual tick keeps the invariant |
| TeleprompterTs.StepKeepsInv | script.ts:106-152 | every event keeps speed and font size in range, the play timer running exactly while playing, and the manual timer running exactly while an arrow key is held |
| TeleprompterTs.RunKeepsInv | script.ts:106-344 | the invariant holds after any sequence of events |
| TeleprompterTs.KeyPressedFontStep | script.ts:280-313 | a key action leaves the font size alone or makes one clamped ±2 step |
| TeleprompterTs.DownCharFontStep | script.ts:254-258 | a down character leaves the font size alone or makes one clamped ±2 step |
| TeleprompterTs.DispatchedFontStep | script.ts:251-265 | a remote key leaves the font size alone or makes one clamped ±2 step |
| TeleprompterTs.KeyDownFontStep | script.ts:317-335 | a keydown leaves the font size alone or makes one clamped ±2 step |
| TeleprompterTs.StepFontStep | script.ts:146-173 | any event leaves the font size alone or makes one clamped ±2 step |
| TeleprompterTs.RunKeepsFontEven | script.ts:48 | starting even (24), the font size stays even after any sequence of events |
| TeleprompterTs.ToggleTwice | script.ts:108-117 | toggling play twice restores the state, and one toggle flips play with its timer |
| TeleprompterTs.MirrorTwice | script.ts:229-248 | mirroring twice restores the orientation and re-anchors for it (`centerOffset` when not mirrored) |
| TeleprompterTs.DispatchedBookkeeping | script.ts:253-263 | a down character marks its key held on key-down and released on key-up; an up character always marks it released |
| TeleprompterTs.KeysPressedBookkeeping | script.ts:251-265 | the same bookkeeping, from the characters the remote sends |
| TeleprompterTs.UnboundKeyIgnored | script.ts:251-265 | a character outside the table changes nothing, on key-up or on key-down (space aside) |
| TeleprompterTs.ReleaseStopsManual | script.ts:269-278 | after a key-up the manual timer runs exactly while an arrow key is still held |
| TeleprompterTs.KeyDownDispatch | script.ts:317-335 | no content: keydown does nothing; a bound character goes to the remote handler alone; space toggles play |
| TeleprompterTs.RemoteDownActs | script.ts:317-324 | pressing a remote button's character marks that button held and runs its handler |
| TeleprompterTs.RemoteButtonActs | script.ts:280-313 | per character: y/j move the speed one step up/down, u/h the font size two up/down, a/d start manual scrolling, w/x toggle play, o flips mirroring and re-anchors; nothing else changes |
| TeleprompterTs.NoUpwardScrollAfterLoad | script.ts:97-98 | with a positive `centerOffset`, loaded unmirrored content accepts no upward scroll, since the top limit is 0 |
| TeleprompterTs.StoppedStaysStopped | script.ts:119-134 | with playback stopped, ticks change nothing |
| TeleprompterTs.PlayTickOutcome | script.ts:122-128 | a tick of running playback either keeps playing from the accepted attempt, or stops; speed and orientation stay |
| TeleprompterTs.PlayTicksRepeat | script.ts:122-128 | while playback runs, n ticks are n accepted attempts of the mirror-adjusted `-speed` |
| TeleprompterTs.PlaybackRunsOut | script.ts:176-203 | n ticks' worth of attempts covering the distance to the limit are not all accepted |
| TeleprompterTs.AutoplayStops | script.ts:119-130 | once n ticks cover the distance to the limit, playback and its timer have stopped |
| TeleprompterTs.Prompter.DisplayContent | script.ts:86-103 | sets the formatted content, places it at `centerOffset`, enables both buttons |
| TeleprompterTs.Prompter.TogglePlayPause | script.ts:108-117 | flips play and starts or stops the playback timer |
| TeleprompterTs.Prompter.StartScrolling | script.ts:119-130 | the playback timer runs (one, after clearing the old) and nothing else changes |
| TeleprompterTs.Prompter.StopScrolling | script.ts:132-134 | the playback timer stops and nothing else changes |
| TeleprompterTs.Prompter.AdjustSpeed | script.ts:154-167 | stores the clamped speed and restarts whichever timers run |
| TeleprompterTs.Prompter.AdjustFontSize | script.ts:169-173 | stores the clamped font size |
| TeleprompterTs.Prompter.ScrollText | script.ts:176-203 | returns whether the limits accept the mirror-adjusted move, and moves only then |
| TeleprompterTs.Prompter.PlayTick | script.ts:122-128 | performs one playback tick |
| TeleprompterTs.Prompter.StartManualScroll | script.ts:206-219 | the manual timer runs and nothing else changes |
| TeleprompterTs.Prompter.StopManualScroll | script.ts:221-224 | the manual timer stops and nothing else changes |
| TeleprompterTs.Prompter.ManualTick | script.ts:209-218 | scrolls down while arrowRight is held, else up while arrowLeft is |
| TeleprompterTs.Prompter.ToggleMirror | script.ts:229-248 | flips the orientation and re-anchors the content |
| TeleprompterTs.Prompter.HandleRemoteKey | script.ts:251-265 | searches the table, records the key held or released, and acts on it |
| TeleprompterTs.Prompter.HandleKeyAction | script.ts:268-314 | performs the key's action on key-down; on key-up stops manual scrolling once no arrow key is held |
| TeleprompterTs.Prompter.KeyDown | script.ts:317-335 | performs the keydown listener |
| TeleprompterTs.Prompter.KeyUp | script.ts:337-344 | performs the keyup listener |
| TeleprompterTs.Prompter.Handle | script.ts:106-152 | performs one event as `Step` specifies |
| TeleprompterDist.BandIsContentHigh | dist/script.js:90-97 | the two limits are `maxScroll` apart around the centre offset, the band they span is as high as the content, and the centre offset is half the container |
| TeleprompterDist.Scrolled | dist/script.js:180-206 | an accepted scroll moves the offset to the accepted position and changes nothing else; a refused one changes nothing |
| TeleprompterDist.PlayTicked | dist/script.js:128-134 | a refused tick stops playback and its timer; an accepted tick moves by the mirror-adjusted `-speed` and changes nothing else |
| TeleprompterDist.KeyPressed | dist/script.js:270-302 | the key-down switch leaves `keysPressed` as it was |
| TeleprompterDist.KeyReleased | dist/script.js:260-268 | the key-up branch leaves `keysPressed` as it was |
| TeleprompterDist.InitDefaults | dist/script.js:35-50 | a saved speed or font size loads as saved, missing ones as speed 1.0 and font size 24; controls start disabled; the invariant holds |
| TeleprompterDist.InitPrefsValid | dist/script.js:43-50 | saved preferences within range load as valid preferences |
| TeleprompterDist.AdjustmentsSave | dist/script.js:154-178 | each adjustment stores its new value, which lies within its range |
| TeleprompterDist.SpeedAdjustKeepsTimers | dist/script.js:154-166 | restarting on a speed change leaves the same timers running |
| TeleprompterDist.KeyPressedRestoresInv | dist/script.js:270-302 | a key action whose key is already marked held restores the invariant |
| TeleprompterDist.DownCharKeepsInv | dist/script.js:246-250 | handling a down character keeps the invariant |
| TeleprompterDist.UpCharKeepsInv | dist/script.js:251-255 | handling an up character keeps the invariant |
| TeleprompterDist.DispatchedKeepsInv | dist/script.js:243-257 | every outcome of the table search keeps the invariant |
| TeleprompterDist.RemoteKeyKeepsInv | dist/script.js:243-257 | `handleRemoteKey` keeps the invariant |
| TeleprompterDist.KeyDownKeepsInv | dist/script.js:305-322 | the keydown listener keeps the invariant |
| TeleprompterDist.ScrollKeepsInv | dist/script.js:180-206 | a scroll keeps the invariant |
| TeleprompterDist.PlayTickedKeepsInv | dist/script.js:128-134 | a playback tick keeps the invariant |
| TeleprompterDist.PlayTickKeepsInv | dist/script.js:128-134 | the playback interval firing keeps the invariant |
| TeleprompterDist.ManualTickKeepsInv | dist/script.js:211-220 | a manual tick keeps the invariant |
| TeleprompterDist.StepKeepsInv | dist/script.js:115-353 | every event keeps the play timer running exactly while playing, the manual timer exactly while an arrow key is held, and storage in agreement with the preferences |
| TeleprompterDist.RunKeepsInv | dist/script.js:115-353 | the invariant holds after any sequence of events |
| TeleprompterDist.ReloadRestoresPrefs | dist/script.js:43-57 | after any session, reloading the page from its storage restores the session's speed and font size |
| TeleprompterDist.KeyPressedKeepsPrefsValid | dist/script.js:270-302 | key actions keep the preferences in range |
| TeleprompterDist.DownCharKeepsPrefsValid | dist/script.js:246-250 | down characters keep the preferences in range |
| TeleprompterDist.DispatchedKeepsPrefsValid | dist/script.js:243-257 | remote keys keep the preferences in range |
| TeleprompterDist.PlayTickedKeepsPrefs | dist/script.js:128-134 | a playback tick changes neither preference |
| TeleprompterDist.ScrollKeepsPrefs | dist/script.js:180-206 | a scroll changes neither preference |
| TeleprompterDist.ManualTickedKeepsPrefs | dist/script.js:211-220 | a manual tick changes neither preference |
| TeleprompterDist.TicksKeepPrefs | dist/script.js:126-221 | timer ticks change neither preference |
| TeleprompterDist.KeyDownKeepsPrefsValid | dist/script.js:305-322 | keydown keeps the preferences in range |
| TeleprompterDist.StepKeepsPrefsValid | dist/script.js:115-353 | every event keeps the preferences in range |
| TeleprompterDist.RunKeepsPrefsValid | dist/script.js:115-353 | preferences in range stay in range after any sequence of events |
| TeleprompterDist.KeyPressedFontStep | dist/script.js:270-302 | a key action leaves the font size alone or makes one clamped ±2 step |
| TeleprompterDist.DownCharFontStep | dist/script.js:246-250 | a down character leaves the font size alone or makes one clamped ±2 step |
| TeleprompterDist.DispatchedFontStep | dist/script.js:243-257 | a remote key leaves the font size alone or makes one clamped ±2 step |
| TeleprompterDist.KeyDownFontStep | dist/script.js:305-322 | a keydown leaves the font size alone or makes one clamped ±2 step |
| TeleprompterDist.StepFontStep | dist/script.js:148-178 | any event leaves the font size alone or makes one clamped ±2 step |
| TeleprompterDist.RunKeepsFontEven | dist/script.js:167-168 | an even font size stays even after any sequence of events |
| TeleprompterDist.AnchorsAreBandEnds | dist/script.js:230-235 | the unmirrored anchor is the top limit, the mirrored anchor is the bottom limit, and the band is not empty |
| TeleprompterDist.CentredScrollStaysInBand | dist/script.js:98-353 | with the geometry unchanged, loading, re-anchoring, mirroring and every scroll keep the offset between the centred limits |
| TeleprompterDist.ScrollStaysInBand | dist/script.js:180-206 | a scroll keeps the offset between the centred limits |
| TeleprompterDist.KeyPressedStaysInBand | dist/script.js:270-302 | a key action keeps the offset between the centred limits |
| TeleprompterDist.DownCharStaysInBand | dist/script.js:246-250 | a down character keeps the offset between the centred limits |
| TeleprompterDist.RemoteKeyStaysInBand | dist/script.js:243-257 | a remote key keeps the offset between the centred limits |
| TeleprompterDist.PlayTickedStaysInBand | dist/script.js:128-134 | a playback tick keeps the offset between the centred limits |
| TeleprompterDist.ManualTickedStaysInBand | dist/script.js:211-220 | a manual tick keeps the offset between the centred limits |
| TeleprompterDist.TicksStayInBand | dist/script.js:126-221 | timer ticks keep the offset between the centred limits |
| TeleprompterDist.LoadedAtTop | dist/script.js:107-109 | loaded unmirrored content sits at the top limit: it cannot move up, but can move down by up to half the container |
| TeleprompterDist.WheelIsTouch | dist/script.js:332-353 | a wheel delta scrolls as far as a drag up by the same distance, and wheel down scrolls the content up |
| TeleprompterDist.TouchAmounts | dist/script.js:345-353 | one amount per touch position: minus half the distance from the previous position, the first taken from the remembered one |
| TeleprompterDist.TouchTelescopes | dist/script.js:339-353 | the amounts of a drag add up to half the distance from its start to its end, and the last position is remembered |
| TeleprompterDist.ScrolledIgnoresLastTouch | dist/script.js:180-206 | `scrollText` neither reads nor changes the remembered touch position |
| TeleprompterDist.ScrollsIgnoreLastTouch | dist/script.js:180-206 | the same holds for any sequence of `scrollText` calls |
| TeleprompterDist.TouchMovesAreScrolls | dist/script.js:345-353 | a drag fed to touchmove is `scrollText` called with each touch amount in turn, after which the last position is remembered |
| TeleprompterDist.ScrollsAddUp | dist/script.js:180-206 | scrolls the limits all accept move the offset by their sum, reversed when mirrored, and change nothing else |
| TeleprompterDist.TouchDragScrolls | dist/script.js:339-353 | a drag whose moves are all accepted moves the content by half the finger's travel, reversed when mirrored, and remembers the last position |
| TeleprompterDist.UnboundKeyIgnored | dist/script.js:243-257 | a character outside the table changes nothing, on key-up or on key-down (space aside) |
| TeleprompterDist.KeyDownDispatch | dist/script.js:305-330 | no content: keydown does nothing; a bound character goes to the remote handler alone; space toggles play; keyup only goes to the remote handler |
| TeleprompterDist.RemoteDownActs | dist/script.js:305-312 | pressing a remote button's character marks that button held and runs its handler |
| TeleprompterDist.RemoteButtonActs | dist/script.js:270-302 | per character: y/j move the speed one step up/down and save it, u/h the font size two up/down, save it and re-anchor, a/d start manual scrolling, w/x toggle play, o flips mirroring and re-anchors; nothing else changes |
| TeleprompterDist.MirrorTwice | dist/script.js:228-241 | mirroring twice restores the orientation and re-anchors at the top limit when not mirrored |
| TeleprompterDist.StoppedStaysStopped | dist/script.js:126-139 | with playback stopped, ticks change nothing |
| TeleprompterDist.PlayTickedOutcome | dist/script.js:128-134 | a tick of running playback keeps playing from the accepted attempt, or stops; speed and orientation stay |
| TeleprompterDist.PlayTickOutcome | dist/script.js:128-134 | the playback interval firing while playing keeps playing from the accepted attempt, or stops |
| TeleprompterDist.PlayTicksRepeat | dist/script.js:128-134 | while playback runs, n ticks are n accepted attempts of the mirror-adjusted `-speed` |
| TeleprompterDist.PlaybackRunsOut | dist/script.js:180-206 | n ticks' worth of attempts covering the distance to the centred limit are not all accepted |
| TeleprompterDist.AutoplayStops | dist/script.js:126-136 | once n ticks cover the distance to the centred limit, playback and its timer have stopped |
| TeleprompterDist.Prompter.constructor | dist/script.js:35-41 | loads the preferences from storage; nothing playing, nothing held |
| TeleprompterDist.Prompter.SaveScrollSpeed | dist/script.js:52-54 | writes the speed under its storage key and nothing else |
| TeleprompterDist.Prompter.SaveFontSize | dist/script.js:55-57 | writes the font size under its storage key and nothing else |
| TeleprompterDist.Prompter.DisplayContent | dist/script.js:98-113 | sets the formatted content, places it at the computed `centerOffset`, enables both buttons |
| TeleprompterDist.Prompter.TogglePlayPause | dist/script.js:116-125 | flips play and starts or stops the playback timer |
| TeleprompterDist.Prompter.StartScrolling | dist/script.js:126-136 | the playback timer runs and nothing else changes |
| TeleprompterDist.Prompter.StopScrolling | dist/script.js:137-139 | the playback timer stops and nothing else changes |
| TeleprompterDist.Prompter.AdjustSpeed | dist/script.js:154-166 | stores and saves the clamped speed and restarts whichever timers run |
| TeleprompterDist.Prompter.AdjustFontSize | dist/script.js:167-178 | stores and saves the clamped font size and re-anchors for the orientation |
| TeleprompterDist.Prompter.ScrollText | dist/script.js:180-206 | returns whether the centred limits accept the mirror-adjusted move, and moves only then |
| TeleprompterDist.Prompter.PlayTick | dist/script.js:128-134 | performs one playback tick |
| TeleprompterDist.Prompter.StartManualScroll | dist/script.js:208-221 | the manual timer runs and nothing else changes |
| TeleprompterDist.Prompter.StopManualScroll | dist/script.js:222-225 | the manual timer stops and nothing else changes |
| TeleprompterDist.Prompter.ManualTick | dist/script.js:211-220 | scrolls down while arrowRight is held, else up while arrowLeft is |
| TeleprompterDist.Prompter.ToggleMirror | dist/script.js:228-241 | flips the orientation and re-anchors the content |
| TeleprompterDist.Prompter.HandleRemoteKey | dist/script.js:243-257 | searches the table, records the key held or released, and acts on it |
| TeleprompterDist.Prompter.HandleKeyAction | dist/script.js:259-303 | performs the key's action on key-down; on key-up stops manual scrolling once no arrow key is held |
| TeleprompterDist.Prompter.KeyDown | dist/script.js:305-322 | performs the keydown listener |
| TeleprompterDist.Prompter.KeyUp | dist/script.js:323-330 | performs the keyup listener |
| TeleprompterDist.Prompter.Wheel | dist/script.js:332-337 | scrolls by minus half the wheel delta |
| TeleprompterDist.Prompter.TouchStart | dist/script.js:341-344 | records the touch position |
| TeleprompterDist.Prompter.TouchMove | dist/script.js:345-353 | scrolls by minus half the finger's movement and remembers the new position |
| TeleprompterDist.Prompter.Handle | dist/script.js:115-353 | performs one event as `Step` specifies |
| TeleprompterEarly.PlayTicked | script.js:63-69 | a refused tick stops playback and its timer; an accepted tick moves up by the speed and changes nothing else |
| TeleprompterEarly.ActionOfCases | script.js:152-183 | space, q and Q toggle play; ArrowUp and ArrowDown change the speed; y, Y, j and J start manual scrolling; each exactly |
| TeleprompterEarly.KeyActed | script.js:152-183 | a key's action leaves the set of held keys as it was |
| TeleprompterEarly.InitInv | script.js:9-13 | the start state satisfies the invariant, with play disabled |
| TeleprompterEarly.HeldAfterAdd | script.js:150 | after adding a key, a manual key is held exactly when one was already or the key is one |
| TeleprompterEarly.KeyActedRestoresInv | script.js:152-183 | a key action restores the invariant once the key is recorded held |
| TeleprompterEarly.KeyDownKeepsInv | script.js:145-185 | the keydown listener keeps the invariant |
| TeleprompterEarly.KeyUpKeepsInv | script.js:187-201 | the keyup listener keeps the invariant |
| TeleprompterEarly.StepKeepsInv | script.js:47-201 | every event keeps the speed in range, the play timer running exactly while playing, and the manual timer running exactly while y/Y/j/J is held |
| TeleprompterEarly.RunKeepsInv | script.js:47-201 | the invariant holds after any sequence of events |
| TeleprompterEarly.LoadedAtTop | script.js:39-43 | loaded content sits at 0 with play enabled and accepts no upward scroll |
| TeleprompterEarly.KeyDownTracking | script.js:145-150 | no content: keydown does nothing; otherwise the key is added to the held keys |
| TeleprompterEarly.KeyUpTracking | script.js:187-189 | keyup removes the key from the held keys |
| TeleprompterEarly.KeyDownDispatch | script.js:145-185 | with content loaded, keydown records the key as held and then, as the whole new state: space/q/Q toggle play, ArrowUp/ArrowDown move the speed one clamped step and restart the running timers, y/Y/j/J start manual scrolling, and any other key changes nothing else |
| TeleprompterEarly.ReleaseStopsManual | script.js:187-201 | after keyup the manual timer runs exactly while a manual key is still held, and only a manual key's release stops it |
| TeleprompterEarly.ManualDownWins | script.js:130-136 | while y or Y is held, a manual tick scrolls down, whatever j/J do |
| TeleprompterEarly.StoppedStaysStopped | script.js:60-75 | with playback stopped, ticks change nothing |
| TeleprompterEarly.PlayTickedOutcome | script.js:63-69 | a tick of running playback keeps playing from the accepted attempt, or stops; the speed stays |
| TeleprompterEarly.PlayTickOutcome | script.js:63-69 | the playback interval firing while playing keeps playing from the accepted attempt, or stops |
| TeleprompterEarly.PlayTicksRepeat | script.js:63-69 | while playback runs, n ticks are n accepted attempts of `-speed` |
| TeleprompterEarly.PlaybackRunsOut | script.js:102-124 | n ticks' worth of attempts covering the distance to the bottom limit are not all accepted |
| TeleprompterEarly.AutoplayStops | script.js:60-71 | once n ticks cover the distance to the bottom limit, playback and its timer have stopped |
| TeleprompterEarly.Prompter.DisplayContent | script.js:28-44 | sets the formatted content, resets the offset to 0, enables play |
| TeleprompterEarly.Prompter.TogglePlayPause | script.js:49-58 | flips play and starts or stops the playback timer |
| TeleprompterEarly.Prompter.StartScrolling | script.js:60-71 | the playback timer runs and nothing else changes |
| TeleprompterEarly.Prompter.StopScrolling | script.js:73-75 | the playback timer stops and nothing else changes |
| TeleprompterEarly.Prompter.AdjustSpeed | script.js:86-99 | stores the clamped speed and restarts whichever timers run |
| TeleprompterEarly.Prompter.ScrollText | script.js:102-124 | returns whether the limits accept the move, and moves only then |
| TeleprompterEarly.Prompter.PlayTick | script.js:63-69 | performs one playback tick |
| TeleprompterEarly.Prompter.StartManualScroll | script.js:127-137 | the manual timer runs and nothing else changes |
| TeleprompterEarly.Prompter.StopManualScroll | script.js:139-142 | the manual timer stops and nothing else changes |
| TeleprompterEarly.Prompter.ManualTick | script.js:130-136 | scrolls down while y/Y is held, else up while j/J is |
| TeleprompterEarly.Prompter.KeyDown | script.js:145-185 | performs the keydown listener |
| TeleprompterEarly.Prompter.KeyUp | script.js:187-201 | performs the keyup listener |
| TeleprompterEarly.Prompter.Handle | script.js:47-204 | performs one event as `Step` specifies |

## Left out

- Looking up the page elements, and returning early when one is missing: the model starts from a set-up page.
- Reading the file (`FileReader`): a load is the `FileLoaded(text)` event carrying the text.
- Real timers and their 16 ms period: a running interval is a boolean, and each firing is a `PlayTick` or `ManualTick` event.
- Reading the offset back through `getComputedStyle` and `DOMMatrix`: the offset is kept in the state as the number last written. The content and container heights arrive with each event as a `Geometry`.
- Button labels, speed and font-size displays, the `scaleX(-1) rotate(180deg)` transform and `console.log`: they have no effect on the modelled state.
- `preventDefault`: it has no effect on the script's own state.
- Adjusters.AdjustedSpeed: speed is integer tenths, not a float. The script's `toFixed(1)` rounding after each ±0.1 step lands on the same tenths, but floating-point error is not modelled.
- Stored preferences: storage holds numbers. Parsing a stored string, and a stored string that is empty or not a number (the script would load `NaN`), are not modelled.
- TeleprompterDist.PrefsValid: not part of `Inv`. A value read back from storage may be out of range, and the script does not check it; `InitPrefsValid` gives the condition under which it is in range.
- The content element is taken to start empty: the page markup (index.html) is not part of this model.
- `touchStartY` is written by the touchstart listener and never read; the model keeps it as a field.
- `keysPressed` keys are compared as strings; JavaScript object-key quirks (such as `"__proto__"`) are not modelled.
- The initial `disabled` attributes are set after the listeners are attached; the model starts with the buttons already disabled.
