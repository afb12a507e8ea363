/**
 * dist/script.js: the later teleprompter. Against script.ts it keeps the speed and font size in
 * local storage, computes `centerOffset` afresh from the page whenever it needs it, checks scrolls
 * against limits widened by `centerOffset` on both sides, re-anchors the content after a font-size
 * change, and also scrolls on mouse-wheel and touch input.
 *
 * As for script.ts, `State` holds the closure variables (and the two stored preferences), the
 * functions are the handlers as transitions, and class `Prompter` performs them on mutable fields.
 */
module TeleprompterDist {
  import opened Wrappers
  import opened Paragraphs
  import opened Adjusters
  import opened ScrollBounds
  import opened RemoteKeys

  const SpeedKey: string := "teleprompter_scroll_speed"
  const FontSizeKey: string := "teleprompter_font_size"

  /** Local storage, holding each preference as the number its string parses to. */
  type Store = map<string, int>

  datatype State = State(
    speed: int,                          // scrollSpeed, in tenths
    fontSize: int,
    isPlaying: bool,
    isMirrored: bool,
    offset: real,                        // the content's translateY
    playTimer: bool,                     // scrollInterval is running
    manualTimer: bool,                   // manualScrollInterval is running
    keysPressed: map<RemoteKey, bool>,
    content: string,                     // the content element's innerHTML
    playEnabled: bool,
    mirrorEnabled: bool,
    store: Store,
    touchStartY: real,
    lastTouchY: real)

  /** `loadScrollSpeed` / `loadFontSize`: the saved value, or the default when there is none. */
  function LoadPref(store: Store, key: string, default: int): int {
    if key in store then store[key] else default
  }

  /** The state once the page is set up: preferences loaded, both controls disabled. */
  function Init(store: Store): State {
    State(LoadPref(store, SpeedKey, DefaultSpeedTenths), LoadPref(store, FontSizeKey, DefaultFontSize),
          false, false, 0.0, false, false, map[], "", false, false, store, 0.0, 0.0)
  }

  datatype Offsets = Offsets(maxScroll: real, centerOffset: real)

  /** `calculateCenterOffset`: how far the content reaches past the container, and half the
      container's height. */
  function CalculateCenterOffset(g: Geometry): Offsets {
    Offsets(g.total - g.container, g.container / 2.0)
  }

  /** The limits of the centred `scrollText`: the offset may go down to -Bottom(g) (exclusive) and
      up to Top(g). */
  function Bottom(g: Geometry): real {
    MaxScroll(g) + CalculateCenterOffset(g).centerOffset
  }

  function Top(g: Geometry): real {
    CalculateCenterOffset(g).centerOffset
  }

  /** Where the content is placed for the given orientation. */
  function Anchor(mirrored: bool, g: Geometry): real {
    var o := CalculateCenterOffset(g);
    MirrorAnchor(mirrored, o.maxScroll, o.centerOffset)
  }

  function Speed(s: State): real {
    s.speed as real / 10.0
  }

  predicate Held(s: State, k: RemoteKey) {
    k in s.keysPressed && s.keysPressed[k]
  }

  predicate ScrollKeyHeld(s: State) {
    Held(s, ArrowRight) || Held(s, ArrowLeft)
  }

  /** The stored preferences agree with the current ones, a missing one standing for its default. */
  ghost predicate StoreAgrees(s: State) {
    LoadPref(s.store, SpeedKey, DefaultSpeedTenths) == s.speed
    && LoadPref(s.store, FontSizeKey, DefaultFontSize) == s.fontSize
  }

  /** What every reachable state satisfies: the play timer runs exactly while playing, the manual
      timer exactly while a directional key is held, and storage agrees with the preferences. */
  ghost predicate Inv(s: State) {
    s.playTimer == s.isPlaying
    && s.manualTimer == ScrollKeyHeld(s)
    && StoreAgrees(s)
  }

  /** The preferences are within their limits. Values read back from storage need not be; every
      adjustment brings them there. (That an even font size stays even is `RunKeepsFontEven`.) */
  ghost predicate PrefsValid(s: State) {
    MinSpeedTenths <= s.speed <= MaxSpeedTenths
    && MinFontSize <= s.fontSize <= MaxFontSize
  }

  /** `displayContent` */
  function Loaded(s: State, text: string, g: Geometry): State {
    s.(content := FormatParagraphs(text), offset := Top(g), playEnabled := true, mirrorEnabled := true)
  }

  /** `togglePlayPause` */
  function Toggled(s: State): State {
    var playing := !s.isPlaying;
    s.(isPlaying := playing, playTimer := playing)
  }

  /** `adjustSpeed`: saves the new speed and restarts whichever timers are running. */
  function SpeedAdjusted(s: State, delta: int): State {
    var speed := AdjustedSpeed(s.speed, delta);
    s.(speed := speed, store := s.store[SpeedKey := speed], playTimer := s.isPlaying || s.playTimer)
  }

  /** `adjustFontSize`: saves the new size and re-anchors the content for the new layout `g`. */
  function FontAdjusted(s: State, delta: int, g: Geometry): State {
    var size := AdjustedFontSize(s.fontSize, delta);
    s.(fontSize := size, store := s.store[FontSizeKey := size], offset := Anchor(s.isMirrored, g))
  }

  function Adjusted(s: State, amount: real): real {
    if s.isMirrored then -amount else amount
  }

  /** The outcome of the centred `scrollText(amount)`. */
  function ScrollResult(s: State, amount: real, g: Geometry): Option<real> {
    Attempt(s.offset, Adjusted(s, amount), Bottom(g), Top(g))
  }

  /** `scrollText` moves the content, or leaves everything as it was; nothing but the offset changes. */
  function Scrolled(s: State, amount: real, g: Geometry): (r: State)
    ensures ScrollResult(s, amount, g).Some? ==> r == s.(offset := ScrollResult(s, amount, g).value)
    ensures ScrollResult(s, amount, g).None? ==> r == s
  {
    match ScrollResult(s, amount, g)
    case None => s
    case Some(o) => s.(offset := o)
  }

  /** One tick of the playback interval. */
  function PlayTicked(s: State, g: Geometry): (r: State)
    ensures ScrollResult(s, -Speed(s), g).None? ==> r == s.(isPlaying := false, playTimer := false)
    ensures ScrollResult(s, -Speed(s), g).Some? ==> r == s.(offset := s.offset + Adjusted(s, -Speed(s)))
  {
    if ScrollResult(s, -Speed(s), g).Some? then Scrolled(s, -Speed(s), g)
    else s.(playTimer := false, isPlaying := false)
  }

  /** One tick of the manual interval: down while arrowRight is held, else up while arrowLeft is. */
  function ManualTicked(s: State, g: Geometry): State {
    if Held(s, ArrowRight) then Scrolled(s, -Speed(s), g)
    else if Held(s, ArrowLeft) then Scrolled(s, Speed(s), g)
    else s
  }

  /** `toggleMirror` */
  function MirrorToggled(s: State, g: Geometry): State {
    var mirrored := !s.isMirrored;
    s.(isMirrored := mirrored, offset := Anchor(mirrored, g))
  }

  /** The amount the wheel listener scrolls by. */
  function WheelAmount(deltaY: real): real {
    -(deltaY * 0.5)
  }

  /** The amount the touchmove listener scrolls by, the finger having moved from `last` to `y`. */
  function TouchAmount(last: real, y: real): real {
    -((last - y) * 0.5)
  }

  function Wheeled(s: State, deltaY: real, g: Geometry): State {
    Scrolled(s, WheelAmount(deltaY), g)
  }

  function TouchStarted(s: State, y: real): State {
    s.(touchStartY := y, lastTouchY := y)
  }

  function TouchMoved(s: State, y: real, g: Geometry): State {
    Scrolled(s.(lastTouchY := y), TouchAmount(s.lastTouchY, y), g)
  }

  /** The key-down switch of `handleKeyAction`. */
  function KeyPressed(s: State, k: RemoteKey, g: Geometry): (r: State)
    ensures r.keysPressed == s.keysPressed
  {
    match k
    case X => SpeedAdjusted(s, 1)
    case Y => FontAdjusted(s, 2, g)
    case A => FontAdjusted(s, -2, g)
    case B => SpeedAdjusted(s, -1)
    case ArrowLeft => s.(manualTimer := true)
    case ArrowRight => s.(manualTimer := true)
    case ArrowDown => Toggled(s)
    case ArrowUp => Toggled(s)
    case Mirror => MirrorToggled(s, g)
  }

  /** The key-up branch of `handleKeyAction`: manual scrolling stops once no directional key is held. */
  function KeyReleased(s: State): (r: State)
    ensures r.keysPressed == s.keysPressed
  {
    if ScrollKeyHeld(s) then s else s.(manualTimer := false)
  }

  /** `handleKeyAction` */
  function KeyActed(s: State, k: RemoteKey, isKeyDown: bool, g: Geometry): State {
    if isKeyDown then KeyPressed(s, k, g) else KeyReleased(s)
  }

  /** What `handleRemoteKey` does once its search of the table has ended with `m`: it records the
      key as held or released and calls `handleKeyAction`, which for an up character (always
      passed as a release) takes its key-up branch. */
  function Dispatched(s: State, m: Option<KeyMatch>, isKeyDown: bool, g: Geometry): State {
    match m
    case None => s
    case Some(DownOf(k)) => KeyActed(s.(keysPressed := s.keysPressed[k := isKeyDown]), k, isKeyDown, g)
    case Some(UpOf(k)) => KeyReleased(s.(keysPressed := s.keysPressed[k := false]))
  }

  /** `handleRemoteKey` */
  function RemoteKeyHandled(s: State, key: string, isKeyDown: bool, g: Geometry): State {
    Dispatched(s, Decode(key), isKeyDown, g)
  }

  /** The keydown listener. */
  function KeyDowned(s: State, key: string, g: Geometry): State {
    if Trim(s.content) == [] then s
    else
      var s1 := RemoteKeyHandled(s, key, true, g);
      if IsBound(key) then s1
      else if key == " " then Toggled(s1)
      else s1
  }

  /** The keyup listener. */
  function KeyUpped(s: State, key: string, g: Geometry): State {
    RemoteKeyHandled(s, key, false, g)
  }

  /** What the page can deliver to the script. */
  datatype Event =
    | FileLoaded(text: string)
    | PlayPauseClick
    | SpeedUpClick
    | SpeedDownClick
    | FontUpClick
    | FontDownClick
    | MirrorClick
    | KeyDown(key: string)
    | KeyUp(key: string)
    | Wheel(deltaY: real)
    | TouchStart(y: real)
    | TouchMove(y: real)
    | PlayTick
    | ManualTick

  /** The listeners wired up in dist/script.js; a disabled button delivers no click, and a timer
      that is not running delivers no tick. `g` is the page geometry when the event is handled. */
  function Step(s: State, e: Event, g: Geometry): State {
    match e
    case FileLoaded(text) => Loaded(s, text, g)
    case PlayPauseClick => if s.playEnabled then Toggled(s) else s
    case SpeedUpClick => SpeedAdjusted(s, 1)
    case SpeedDownClick => SpeedAdjusted(s, -1)
    case FontUpClick => FontAdjusted(s, 2, g)
    case FontDownClick => FontAdjusted(s, -2, g)
    case MirrorClick => if s.mirrorEnabled then MirrorToggled(s, g) else s
    case KeyDown(key) => KeyDowned(s, key, g)
    case KeyUp(key) => KeyUpped(s, key, g)
    case Wheel(deltaY) => Wheeled(s, deltaY, g)
    case TouchStart(y) => TouchStarted(s, y)
    case TouchMove(y) => TouchMoved(s, y, g)
    case PlayTick => PlayTimerFired(s, g)
    case ManualTick => if s.manualTimer then ManualTicked(s, g) else s
  }

  /** The playback interval fires: it ticks if it is running. */
  function PlayTimerFired(s: State, g: Geometry): State {
    if s.playTimer then PlayTicked(s, g) else s
  }

  function Run(s: State, events: seq<(Event, Geometry)>): State
    decreases |events|
  {
    if events == [] then s else Run(Step(s, events[0].0, events[0].1), events[1..])
  }

  // ---------------------------------------------------------------------------
  // Preferences

  /** A saved preference is loaded as saved; with nothing saved, speed starts at 1.0 and font size
      at 24; both controls start disabled. */
  lemma InitDefaults(store: Store)
    ensures SpeedKey in store ==> Init(store).speed == store[SpeedKey]
    ensures FontSizeKey in store ==> Init(store).fontSize == store[FontSizeKey]
    ensures SpeedKey !in store ==> Init(store).speed == 10
    ensures FontSizeKey !in store ==> Init(store).fontSize == 24
    ensures !Init(store).playEnabled && !Init(store).mirrorEnabled
    ensures Inv(Init(store))
  {
  }

  /** Saved preferences within their limits are loaded within their limits. */
  lemma InitPrefsValid(store: Store)
    requires SpeedKey in store ==> MinSpeedTenths <= store[SpeedKey] <= MaxSpeedTenths
    requires FontSizeKey in store ==> MinFontSize <= store[FontSizeKey] <= MaxFontSize
    ensures PrefsValid(Init(store))
  {
  }

  /** After an adjustment the stored value is the current one, and it lies within its limits
      whatever was loaded before. */
  lemma AdjustmentsSave(s: State, delta: int, g: Geometry)
    ensures SpeedKey in SpeedAdjusted(s, delta).store
    ensures SpeedAdjusted(s, delta).store[SpeedKey] == SpeedAdjusted(s, delta).speed
    ensures MinSpeedTenths <= SpeedAdjusted(s, delta).speed <= MaxSpeedTenths
    ensures FontSizeKey in FontAdjusted(s, delta, g).store
    ensures FontAdjusted(s, delta, g).store[FontSizeKey] == FontAdjusted(s, delta, g).fontSize
    ensures MinFontSize <= FontAdjusted(s, delta, g).fontSize <= MaxFontSize
  {
  }

  /** `adjustSpeed` restarts the timers that are running and starts none that is not. */
  lemma SpeedAdjustKeepsTimers(s: State, delta: int)
    requires Inv(s)
    ensures SpeedAdjusted(s, delta).playTimer == s.playTimer
    ensures SpeedAdjusted(s, delta).manualTimer == s.manualTimer
  {
  }

  // ---------------------------------------------------------------------------
  // The invariant

  /** A key-down action reached through `handleRemoteKey` finds its key already marked held; it
      restores the invariant from there. */
  lemma KeyPressedRestoresInv(s: State, k: RemoteKey, g: Geometry)
    requires s.playTimer == s.isPlaying && StoreAgrees(s)
    requires Held(s, k)
    requires k != ArrowLeft && k != ArrowRight ==> s.manualTimer == ScrollKeyHeld(s)
    ensures Inv(KeyPressed(s, k, g))
  {
    match k {
      case X => case Y => case A => case B => case Mirror =>
      case ArrowLeft => case ArrowRight => case ArrowUp => case ArrowDown =>
    }
  }

  lemma DownCharKeepsInv(s: State, k: RemoteKey, isKeyDown: bool, g: Geometry)
    requires Inv(s)
    ensures Inv(Dispatched(s, Some(DownOf(k)), isKeyDown, g))
  {
    if isKeyDown {
      KeyPressedRestoresInv(s.(keysPressed := s.keysPressed[k := true]), k, g);
    }
  }

  lemma UpCharKeepsInv(s: State, k: RemoteKey, g: Geometry)
    requires Inv(s)
    ensures Inv(Dispatched(s, Some(UpOf(k)), false, g))
  {
  }

  lemma DispatchedKeepsInv(s: State, m: Option<KeyMatch>, isKeyDown: bool, g: Geometry)
    requires Inv(s)
    ensures Inv(Dispatched(s, m, isKeyDown, g))
  {
    match m {
      case None =>
      case Some(DownOf(k)) => DownCharKeepsInv(s, k, isKeyDown, g);
      case Some(UpOf(k)) => UpCharKeepsInv(s, k, g);
    }
  }

  lemma RemoteKeyKeepsInv(s: State, key: string, isKeyDown: bool, g: Geometry)
    requires Inv(s)
    ensures Inv(RemoteKeyHandled(s, key, isKeyDown, g))
  {
    DispatchedKeepsInv(s, Decode(key), isKeyDown, g);
  }

  lemma KeyDownKeepsInv(s: State, key: string, g: Geometry)
    requires Inv(s)
    ensures Inv(KeyDowned(s, key, g))
  {
    if Trim(s.content) != [] {
      RemoteKeyKeepsInv(s, key, true, g);
      var s1 := RemoteKeyHandled(s, key, true, g);
      assert Inv(Toggled(s1));
    }
  }

  lemma ScrollKeepsInv(s: State, amount: real, g: Geometry)
    requires Inv(s)
    ensures Inv(Scrolled(s, amount, g))
  {
  }

  lemma PlayTickedKeepsInv(s: State, g: Geometry)
    requires Inv(s)
    ensures Inv(PlayTicked(s, g))
  {
  }

  lemma PlayTickKeepsInv(s: State, g: Geometry)
    requires Inv(s)
    ensures Inv(PlayTimerFired(s, g))
  {
    if s.playTimer {
      PlayTickedKeepsInv(s, g);
    }
  }

  lemma ManualTickKeepsInv(s: State, g: Geometry)
    requires Inv(s)
    ensures Inv(ManualTicked(s, g))
  {
    if Held(s, ArrowRight) {
      ScrollKeepsInv(s, -Speed(s), g);
    } else if Held(s, ArrowLeft) {
      ScrollKeepsInv(s, Speed(s), g);
    }
  }

  lemma StepKeepsInv(s: State, e: Event, g: Geometry)
    requires Inv(s)
    ensures Inv(Step(s, e, g))
  {
    match e
    case KeyDown(key) =>
      KeyDownKeepsInv(s, key, g);
    case KeyUp(key) =>
      RemoteKeyKeepsInv(s, key, false, g);
    case Wheel(deltaY) =>
      ScrollKeepsInv(s, WheelAmount(deltaY), g);
    case TouchMove(y) =>
      ScrollKeepsInv(s.(lastTouchY := y), TouchAmount(s.lastTouchY, y), g);
    case PlayTick =>
      PlayTickKeepsInv(s, g);
    case ManualTick =>
      if s.manualTimer {
        ManualTickKeepsInv(s, g);
      }
    case _ =>
  }

  /** Whatever the user does, at most one playback timer runs and only while playing, the manual
      timer runs exactly while a directional key is held, and storage holds the preferences. */
  lemma {:induction false} RunKeepsInv(s: State, events: seq<(Event, Geometry)>)
    requires Inv(s)
    ensures Inv(Run(s, events))
    decreases |events|
  {
    if events != [] {
      StepKeepsInv(s, events[0].0, events[0].1);
      RunKeepsInv(Step(s, events[0].0, events[0].1), events[1..]);
    }
  }

  /** Reloading the page restores the preferences the session ended with. */
  lemma ReloadRestoresPrefs(store: Store, events: seq<(Event, Geometry)>)
    ensures Init(Run(Init(store), events).store).speed == Run(Init(store), events).speed
    ensures Init(Run(Init(store), events).store).fontSize == Run(Init(store), events).fontSize
  {
    InitDefaults(store);
    RunKeepsInv(Init(store), events);
  }

  lemma KeyPressedKeepsPrefsValid(s: State, k: RemoteKey, g: Geometry)
    requires PrefsValid(s)
    ensures PrefsValid(KeyPressed(s, k, g))
  {
    match k {
      case X => case Y => case A => case B => case Mirror =>
      case ArrowLeft => case ArrowRight => case ArrowUp => case ArrowDown =>
    }
  }

  lemma DownCharKeepsPrefsValid(s: State, k: RemoteKey, isKeyDown: bool, g: Geometry)
    requires PrefsValid(s)
    ensures PrefsValid(Dispatched(s, Some(DownOf(k)), isKeyDown, g))
  {
    if isKeyDown {
      KeyPressedKeepsPrefsValid(s.(keysPressed := s.keysPressed[k := true]), k, g);
    }
  }

  lemma DispatchedKeepsPrefsValid(s: State, m: Option<KeyMatch>, isKeyDown: bool, g: Geometry)
    requires PrefsValid(s)
    ensures PrefsValid(Dispatched(s, m, isKeyDown, g))
  {
    match m {
      case None =>
      case Some(DownOf(k)) => DownCharKeepsPrefsValid(s, k, isKeyDown, g);
      case Some(UpOf(k)) =>
    }
  }

  /** The two intervals only scroll or stop playback: they leave the preferences alone. */
  lemma PlayTickedKeepsPrefs(s: State, g: Geometry)
    ensures PlayTicked(s, g).speed == s.speed && PlayTicked(s, g).fontSize == s.fontSize
  {
  }

  lemma ScrollKeepsPrefs(s: State, amount: real, g: Geometry)
    ensures Scrolled(s, amount, g).speed == s.speed && Scrolled(s, amount, g).fontSize == s.fontSize
  {
  }

  lemma ManualTickedKeepsPrefs(s: State, g: Geometry)
    ensures ManualTicked(s, g).speed == s.speed && ManualTicked(s, g).fontSize == s.fontSize
  {
    if Held(s, ArrowRight) {
      ScrollKeepsPrefs(s, -Speed(s), g);
    } else if Held(s, ArrowLeft) {
      ScrollKeepsPrefs(s, Speed(s), g);
    }
  }

  lemma TicksKeepPrefs(s: State, g: Geometry)
    ensures PlayTimerFired(s, g).speed == s.speed && PlayTimerFired(s, g).fontSize == s.fontSize
    ensures ManualTicked(s, g).speed == s.speed && ManualTicked(s, g).fontSize == s.fontSize
  {
    if s.playTimer {
      PlayTickedKeepsPrefs(s, g);
    }
    ManualTickedKeepsPrefs(s, g);
  }

  lemma KeyDownKeepsPrefsValid(s: State, key: string, g: Geometry)
    requires PrefsValid(s)
    ensures PrefsValid(KeyDowned(s, key, g))
  {
    if Trim(s.content) != [] {
      DispatchedKeepsPrefsValid(s, Decode(key), true, g);
      assert PrefsValid(Toggled(RemoteKeyHandled(s, key, true, g)));
    }
  }

  lemma StepKeepsPrefsValid(s: State, e: Event, g: Geometry)
    requires PrefsValid(s)
    ensures PrefsValid(Step(s, e, g))
  {
    match e
    case KeyDown(key) =>
      KeyDownKeepsPrefsValid(s, key, g);
    case KeyUp(key) =>
      DispatchedKeepsPrefsValid(s, Decode(key), false, g);
    case PlayTick =>
      TicksKeepPrefs(s, g);
    case ManualTick =>
      TicksKeepPrefs(s, g);
    case _ =>
  }

  /** Once within their limits, the preferences stay there. */
  lemma {:induction false} RunKeepsPrefsValid(s: State, events: seq<(Event, Geometry)>)
    requires PrefsValid(s)
    ensures PrefsValid(Run(s, events))
    decreases |events|
  {
    if events != [] {
      StepKeepsPrefsValid(s, events[0].0, events[0].1);
      RunKeepsPrefsValid(Step(s, events[0].0, events[0].1), events[1..]);
    }
  }

  /** The font sizes one event can lead to: the same one, or one clamped press of 2 pixels up or
      down. */
  ghost predicate FontStep(before: int, after: int) {
    after == before || after == AdjustedFontSize(before, 2) || after == AdjustedFontSize(before, -2)
  }

  lemma KeyPressedFontStep(s: State, k: RemoteKey, g: Geometry)
    ensures FontStep(s.fontSize, KeyPressed(s, k, g).fontSize)
  {
    match k {
      case X => case Y => case A => case B => case Mirror =>
      case ArrowLeft => case ArrowRight => case ArrowUp => case ArrowDown =>
    }
  }

  lemma DownCharFontStep(s: State, k: RemoteKey, isKeyDown: bool, g: Geometry)
    ensures FontStep(s.fontSize, Dispatched(s, Some(DownOf(k)), isKeyDown, g).fontSize)
  {
    if isKeyDown {
      KeyPressedFontStep(s.(keysPressed := s.keysPressed[k := true]), k, g);
    }
  }

  lemma DispatchedFontStep(s: State, m: Option<KeyMatch>, isKeyDown: bool, g: Geometry)
    ensures FontStep(s.fontSize, Dispatched(s, m, isKeyDown, g).fontSize)
  {
    match m {
      case None =>
      case Some(DownOf(k)) => DownCharFontStep(s, k, isKeyDown, g);
      case Some(UpOf(k)) =>
    }
  }

  lemma KeyDownFontStep(s: State, key: string, g: Geometry)
    ensures FontStep(s.fontSize, KeyDowned(s, key, g).fontSize)
  {
    if Trim(s.content) != [] {
      DispatchedFontStep(s, Decode(key), true, g);
    }
  }

  lemma StepFontStep(s: State, e: Event, g: Geometry)
    ensures FontStep(s.fontSize, Step(s, e, g).fontSize)
  {
    match e
    case KeyDown(key) => KeyDownFontStep(s, key, g);
    case KeyUp(key) => DispatchedFontStep(s, Decode(key), false, g);
    case PlayTick => TicksKeepPrefs(s, g);
    case ManualTick => TicksKeepPrefs(s, g);
    case _ =>
  }

  /** An even font size (the default 24, or an even saved one) moves in steps of 2 within even
      limits, so it stays even. */
  lemma {:induction false} RunKeepsFontEven(s: State, events: seq<(Event, Geometry)>)
    requires s.fontSize % 2 == 0
    ensures Run(s, events).fontSize % 2 == 0
    decreases |events|
  {
    if events != [] {
      StepFontStep(s, events[0].0, events[0].1);
      RunKeepsFontEven(Step(s, events[0].0, events[0].1), events[1..]);
    }
  }

  // ---------------------------------------------------------------------------
  // The centred limits

  /** The two anchors are the two ends of the band the centred limits allow: unmirrored content
      sits at the top limit, mirrored content at the bottom one. */
  lemma AnchorsAreBandEnds(g: Geometry)
    ensures Anchor(false, g) == Top(g)
    ensures Anchor(true, g) == -Bottom(g)
    ensures g.total >= 0.0 ==> -Bottom(g) <= Top(g)
  {
  }

  /** The centred limits sit half a container beyond the plain ones on both sides, so the band
      they allow is exactly as high as the content, and the top limit is the container's middle. */
  lemma BandIsContentHigh(g: Geometry)
    ensures Top(g) + Bottom(g) == g.total
    ensures Bottom(g) == MaxScroll(g) + Top(g)
    ensures 2.0 * Top(g) == g.container
  {
  }

  ghost predicate InBand(s: State, g: Geometry) {
    -Bottom(g) <= s.offset <= Top(g)
  }

  /** With the geometry unchanged, loading, mirroring, re-anchoring and every scroll keep the
      offset inside the band. */
  lemma CentredScrollStaysInBand(s: State, e: Event, g: Geometry)
    requires g.total >= 0.0
    requires e.FileLoaded? || e.FontUpClick? || e.FontDownClick? || (e.MirrorClick? && s.mirrorEnabled)
             || InBand(s, g)
    ensures InBand(Step(s, e, g), g)
  {
    AnchorsAreBandEnds(g);
    match e
    case Wheel(deltaY) =>
      ScrollStaysInBand(s, WheelAmount(deltaY), g);
    case TouchMove(y) =>
      ScrollStaysInBand(s.(lastTouchY := y), TouchAmount(s.lastTouchY, y), g);
    case PlayTick =>
      TicksStayInBand(s, g);
    case ManualTick =>
      TicksStayInBand(s, g);
    case KeyDown(key) =>
      if Trim(s.content) != [] {
        RemoteKeyStaysInBand(s, key, true, g);
      }
    case KeyUp(key) =>
      RemoteKeyStaysInBand(s, key, false, g);
    case FileLoaded(text) =>
    case PlayPauseClick =>
    case SpeedUpClick =>
    case SpeedDownClick =>
    case FontUpClick =>
    case FontDownClick =>
    case MirrorClick =>
    case TouchStart(y) =>
  }

  lemma ScrollStaysInBand(s: State, amount: real, g: Geometry)
    requires InBand(s, g)
    ensures InBand(Scrolled(s, amount, g), g)
  {
    AttemptStaysInBand(s.offset, Adjusted(s, amount), Bottom(g), Top(g));
  }

  lemma KeyPressedStaysInBand(s: State, k: RemoteKey, g: Geometry)
    requires g.total >= 0.0 && InBand(s, g)
    ensures InBand(KeyPressed(s, k, g), g)
  {
    match k {
      case X => case Y => case A => case B => case Mirror =>
      case ArrowLeft => case ArrowRight => case ArrowUp => case ArrowDown =>
    }
  }

  lemma DownCharStaysInBand(s: State, k: RemoteKey, isKeyDown: bool, g: Geometry)
    requires g.total >= 0.0 && InBand(s, g)
    ensures InBand(Dispatched(s, Some(DownOf(k)), isKeyDown, g), g)
  {
    if isKeyDown {
      KeyPressedStaysInBand(s.(keysPressed := s.keysPressed[k := true]), k, g);
    }
  }

  lemma RemoteKeyStaysInBand(s: State, key: string, isKeyDown: bool, g: Geometry)
    requires g.total >= 0.0 && InBand(s, g)
    ensures InBand(RemoteKeyHandled(s, key, isKeyDown, g), g)
  {
    match Decode(key) {
      case None =>
      case Some(DownOf(k)) => DownCharStaysInBand(s, k, isKeyDown, g);
      case Some(UpOf(k)) =>
    }
  }

  lemma PlayTickedStaysInBand(s: State, g: Geometry)
    requires InBand(s, g)
    ensures InBand(PlayTicked(s, g), g)
  {
    if ScrollResult(s, -Speed(s), g).Some? {
      ScrollStaysInBand(s, -Speed(s), g);
      assert PlayTicked(s, g) == Scrolled(s, -Speed(s), g);
    } else {
      assert PlayTicked(s, g).offset == s.offset;
    }
  }

  lemma ManualTickedStaysInBand(s: State, g: Geometry)
    requires InBand(s, g)
    ensures InBand(ManualTicked(s, g), g)
  {
    ScrollStaysInBand(s, -Speed(s), g);
    ScrollStaysInBand(s, Speed(s), g);
  }

  lemma TicksStayInBand(s: State, g: Geometry)
    requires InBand(s, g)
    ensures InBand(PlayTimerFired(s, g), g)
    ensures InBand(ManualTicked(s, g), g)
  {
    if s.playTimer {
      PlayTickedStaysInBand(s, g);
    }
    ManualTickedStaysInBand(s, g);
  }

  /** Loaded content sits at the top limit: unmirrored, it cannot move up, but it can move down by
      up to half the container whenever the content is at least as tall as the container. */
  lemma LoadedAtTop(s: State, text: string, g: Geometry, step: real)
    requires !s.isMirrored && step > 0.0
    ensures ScrollResult(Loaded(s, text, g), step, g) == None
    ensures step <= Top(g) && MaxScroll(g) >= 0.0 ==>
      ScrollResult(Loaded(s, text, g), -step, g) == Some(Top(g) - step)
  {
  }

  // ---------------------------------------------------------------------------
  // Wheel and touch

  /** A wheel notch of `deltaY` scrolls as far as a finger dragged up by `deltaY`. */
  lemma WheelIsTouch(last: real, deltaY: real)
    ensures WheelAmount(deltaY) == TouchAmount(last, last - deltaY)
    ensures deltaY > 0.0 ==> WheelAmount(deltaY) < 0.0
  {
  }

  /** The touch positions after a touchstart at `y0`, fed to touchmove one by one. */
  function TouchMoves(s: State, ys: seq<real>, g: Geometry): State
    decreases |ys|
  {
    if ys == [] then s else TouchMoves(TouchMoved(s, ys[0], g), ys[1..], g)
  }

  /** The amounts the touchmove listener asks `scrollText` for, one per position. */
  function TouchAmounts(last: real, ys: seq<real>): (r: seq<real>)
    ensures |r| == |ys|
    ensures forall i :: 0 <= i < |ys| ==> r[i] == TouchAmount(if i == 0 then last else ys[i - 1], ys[i])
    decreases |ys|
  {
    if ys == [] then [] else [TouchAmount(last, ys[0])] + TouchAmounts(ys[0], ys[1..])
  }

  function Sum(xs: seq<real>): real
    decreases |xs|
  {
    if xs == [] then 0.0 else xs[0] + Sum(xs[1..])
  }

  /** The amounts of a drag add up to half the distance from where it started to where it ends,
      however it was cut into moves; and the last position is remembered. */
  lemma {:induction false} TouchTelescopes(s: State, ys: seq<real>, g: Geometry)
    requires |ys| > 0
    ensures Sum(TouchAmounts(s.lastTouchY, ys)) == (ys[|ys| - 1] - s.lastTouchY) * 0.5
    ensures TouchMoves(s, ys, g).lastTouchY == ys[|ys| - 1]
    decreases |ys|
  {
    if |ys| > 1 {
      var s1 := TouchMoved(s, ys[0], g);
      assert s1.lastTouchY == ys[0];
      TouchTelescopes(s1, ys[1..], g);
    }
  }

  /** `scrollText` called with each of `amounts` in turn. */
  function Scrolls(s: State, amounts: seq<real>, g: Geometry): State
    decreases |amounts|
  {
    if amounts == [] then s else Scrolls(Scrolled(s, amounts[0], g), amounts[1..], g)
  }

  /** Every call of `Scrolls(s, amounts, g)` is accepted by the limits. */
  ghost predicate AllAccepted(s: State, amounts: seq<real>, g: Geometry)
    decreases |amounts|
  {
    amounts == [] ||
    (ScrollResult(s, amounts[0], g).Some? && AllAccepted(Scrolled(s, amounts[0], g), amounts[1..], g))
  }

  /** `scrollText` neither reads nor writes the remembered touch position. */
  lemma ScrolledIgnoresLastTouch(s: State, y: real, amount: real, g: Geometry)
    ensures Scrolled(s.(lastTouchY := y), amount, g) == Scrolled(s, amount, g).(lastTouchY := y)
  {
  }

  lemma {:induction false} ScrollsIgnoreLastTouch(s: State, y: real, amounts: seq<real>, g: Geometry)
    ensures Scrolls(s.(lastTouchY := y), amounts, g) == Scrolls(s, amounts, g).(lastTouchY := y)
    decreases |amounts|
  {
    if amounts != [] {
      ScrolledIgnoresLastTouch(s, y, amounts[0], g);
      ScrollsIgnoreLastTouch(Scrolled(s, amounts[0], g), y, amounts[1..], g);
    }
  }

  /** A drag fed to touchmove scrolls by the touch amounts, in order, and remembers its last position. */
  lemma {:induction false} TouchMovesAreScrolls(s: State, ys: seq<real>, g: Geometry)
    requires |ys| > 0
    ensures TouchMoves(s, ys, g) == Scrolls(s, TouchAmounts(s.lastTouchY, ys), g).(lastTouchY := ys[|ys| - 1])
    decreases |ys|
  {
    var a := TouchAmount(s.lastTouchY, ys[0]);
    var s1 := TouchMoved(s, ys[0], g);
    ScrolledIgnoresLastTouch(s, ys[0], a, g);
    assert TouchAmounts(s.lastTouchY, ys) == [a] + TouchAmounts(ys[0], ys[1..]);
    if |ys| > 1 {
      TouchMovesAreScrolls(s1, ys[1..], g);
      ScrollsIgnoreLastTouch(Scrolled(s, a, g), ys[0], TouchAmounts(ys[0], ys[1..]), g);
    }
  }

  /** Scrolls that the limits all accept move the offset by their sum, mirrored or not, and change
      nothing else. */
  lemma {:induction false} ScrollsAddUp(s: State, amounts: seq<real>, g: Geometry)
    requires AllAccepted(s, amounts, g)
    ensures Scrolls(s, amounts, g) == s.(offset := s.offset + Adjusted(s, Sum(amounts)))
    decreases |amounts|
  {
    if amounts != [] {
      var s1 := Scrolled(s, amounts[0], g);
      assert s1 == s.(offset := s.offset + Adjusted(s, amounts[0]));
      ScrollsAddUp(s1, amounts[1..], g);
    }
  }

  /** A drag whose moves the limits all accept moves the content by half the finger's travel
      (against it when mirrored), and remembers where the finger is. */
  lemma TouchDragScrolls(s: State, ys: seq<real>, g: Geometry)
    requires |ys| > 0 && AllAccepted(s, TouchAmounts(s.lastTouchY, ys), g)
    ensures TouchMoves(s, ys, g)
      == s.(offset := s.offset + Adjusted(s, (ys[|ys| - 1] - s.lastTouchY) * 0.5), lastTouchY := ys[|ys| - 1])
  {
    TouchMovesAreScrolls(s, ys, g);
    ScrollsAddUp(s, TouchAmounts(s.lastTouchY, ys), g);
    TouchTelescopes(s, ys, g);
  }

  // ---------------------------------------------------------------------------
  // Key handling

  lemma UnboundKeyIgnored(s: State, key: string, isKeyDown: bool, g: Geometry)
    requires !IsBound(key)
    ensures RemoteKeyHandled(s, key, isKeyDown, g) == s
    ensures key != " " ==> KeyDowned(s, key, g) == s
    ensures KeyUpped(s, key, g) == s
  {
    BoundIffDecoded(key);
  }

  /** Keydown does nothing while there is no content and a bound character never reaches the
      space-bar fallback; keyup is handled whatever the content. */
  lemma KeyDownDispatch(s: State, key: string, g: Geometry)
    ensures Trim(s.content) == [] ==> KeyDowned(s, key, g) == s
    ensures Trim(s.content) != [] && IsBound(key) ==> KeyDowned(s, key, g) == RemoteKeyHandled(s, key, true, g)
    ensures Trim(s.content) != [] && key == " " ==> KeyDowned(s, key, g) == Toggled(s)
    ensures KeyUpped(s, key, g) == RemoteKeyHandled(s, key, false, g)
  {
    if key == " " {
      SpaceUnbound();
    }
  }
  /** A remote button's down character, arriving as a keydown once content is loaded, marks its
      key held and performs that key's action. */
  lemma RemoteDownActs(s: State, k: RemoteKey, g: Geometry)
    requires Trim(s.content) != []
    ensures KeyDowned(s, Down(k), g) == KeyPressed(s.(keysPressed := s.keysPressed[k := true]), k, g)
  {
    DecodeDown(k);
    BoundIffDecoded(Down(k));
  }

  /** What each button of the remote does when its down character arrives with content loaded:
      x ("y") and b ("j") step the speed up and down by a clamped tenth, restarting playback;
      y ("u") and a ("h") step the font size up and down by a clamped 2 pixels; arrowLeft ("a")
      and arrowRight ("d") start manual scrolling; arrowUp ("w") and arrowDown ("x") toggle play;
      mirror ("o") flips the orientation and re-anchors the content. The key is marked held. */
  lemma RemoteButtonActs(s: State, k: RemoteKey, g: Geometry)
    requires Trim(s.content) != []
    ensures var held := s.keysPressed[k := true];
      match k
      case X => KeyDowned(s, Down(k), g) == s.(keysPressed := held, speed := AdjustedSpeed(s.speed, 1), store := s.store[SpeedKey := AdjustedSpeed(s.speed, 1)], playTimer := s.isPlaying || s.playTimer)
      case B => KeyDowned(s, Down(k), g) == s.(keysPressed := held, speed := AdjustedSpeed(s.speed, -1), store := s.store[SpeedKey := AdjustedSpeed(s.speed, -1)], playTimer := s.isPlaying || s.playTimer)
      case Y => KeyDowned(s, Down(k), g) == s.(keysPressed := held, fontSize := AdjustedFontSize(s.fontSize, 2),
                              store := s.store[FontSizeKey := AdjustedFontSize(s.fontSize, 2)],
                              offset := Anchor(s.isMirrored, g))
      case A => KeyDowned(s, Down(k), g) == s.(keysPressed := held, fontSize := AdjustedFontSize(s.fontSize, -2),
                              store := s.store[FontSizeKey := AdjustedFontSize(s.fontSize, -2)],
                              offset := Anchor(s.isMirrored, g))
      case ArrowLeft => KeyDowned(s, Down(k), g) == s.(keysPressed := held, manualTimer := true)
      case ArrowRight => KeyDowned(s, Down(k), g) == s.(keysPressed := held, manualTimer := true)
      case ArrowUp => KeyDowned(s, Down(k), g) == s.(keysPressed := held, isPlaying := !s.isPlaying,
                                                      playTimer := !s.isPlaying)
      case ArrowDown => KeyDowned(s, Down(k), g) == s.(keysPressed := held, isPlaying := !s.isPlaying,
                                                        playTimer := !s.isPlaying)
      case Mirror => KeyDowned(s, Down(k), g) == s.(keysPressed := held, isMirrored := !s.isMirrored,
                                                     offset := Anchor(!s.isMirrored, g))
  {
    RemoteDownActs(s, k, g);
    match k {
      case X => case B => case Y => case A => case Mirror =>
      case ArrowLeft => case ArrowRight => case ArrowUp => case ArrowDown =>
    }
  }



  /** The mirror toggle, twice, restores the orientation and anchors at `centerOffset`. */
  lemma MirrorTwice(s: State, g1: Geometry, g2: Geometry)
    ensures MirrorToggled(MirrorToggled(s, g1), g2).isMirrored == s.isMirrored
    ensures !s.isMirrored ==> MirrorToggled(MirrorToggled(s, g1), g2).offset == Top(g2)
  {
  }

  // ---------------------------------------------------------------------------
  // Playback

  /** The playback interval firing n times with the geometry unchanged. */
  function PlayTicks(s: State, g: Geometry, n: nat): State
    decreases n
  {
    if n == 0 then s else PlayTicks(PlayTimerFired(s, g), g, n - 1)
  }

  lemma {:induction false} StoppedStaysStopped(s: State, g: Geometry, n: nat)
    requires Inv(s) && !s.isPlaying
    ensures PlayTicks(s, g, n) == s
    decreases n
  {
    if n > 0 {
      StoppedStaysStopped(s, g, n - 1);
    }
  }

  /** One tick of running playback: either the attempt of the mirror-adjusted `-speed` against the
      centred limits is accepted and playback goes on from its offset, or it is rejected and
      playback stops. */
  lemma PlayTickedOutcome(s: State, g: Geometry)
    requires s.isPlaying
    ensures PlayTicked(s, g).isPlaying
        ==> Attempt(s.offset, Adjusted(s, -Speed(s)), Bottom(g), Top(g)) == Some(PlayTicked(s, g).offset)
    ensures PlayTicked(s, g).speed == s.speed && PlayTicked(s, g).isMirrored == s.isMirrored
  {
  }

  lemma PlayTickOutcome(s: State, g: Geometry)
    requires Inv(s) && s.isPlaying
    ensures PlayTimerFired(s, g).isPlaying
        ==> Attempt(s.offset, Adjusted(s, -Speed(s)), Bottom(g), Top(g)) == Some(PlayTimerFired(s, g).offset)
    ensures PlayTimerFired(s, g).speed == s.speed && PlayTimerFired(s, g).isMirrored == s.isMirrored
    ensures Inv(PlayTimerFired(s, g))
  {
    PlayTickedOutcome(s, g);
    PlayTickedKeepsInv(s, g);
  }

  /** While playback keeps running, n ticks are n accepted attempts of the mirror-adjusted `-speed`
      against the centred limits. */
  lemma {:induction false} PlayTicksRepeat(s: State, g: Geometry, n: nat)
    requires Inv(s) && s.isPlaying
    ensures PlayTicks(s, g, n).isPlaying ==>
      Repeat(s.offset, Adjusted(s, -Speed(s)), Bottom(g), Top(g), n) == Some(PlayTicks(s, g, n).offset)
    ensures PlayTicks(s, g, n).speed == s.speed && PlayTicks(s, g, n).isMirrored == s.isMirrored
    ensures Inv(PlayTicks(s, g, n))
    decreases n
  {
    if n > 0 {
      var s1 := PlayTimerFired(s, g);
      PlayTickOutcome(s, g);
      if s1.isPlaying {
        PlayTicksRepeat(s1, g, n - 1);
      } else {
        StoppedStaysStopped(s1, g, n - 1);
      }
    }
  }

  /** The attempts playback makes, n ticks of the current speed, run out once they would cover the
      distance to the centred limit in the playing direction. */
  lemma PlaybackRunsOut(s: State, g: Geometry, n: nat)
    requires PrefsValid(s) && n > 0
    requires !s.isMirrored ==> (n as real) * Speed(s) >= s.offset + Bottom(g)
    requires s.isMirrored ==> (n as real) * Speed(s) > Top(g) - s.offset
    ensures Repeat(s.offset, Adjusted(s, -Speed(s)), Bottom(g), Top(g), n) == None
  {
    var step := Speed(s);
    if s.isMirrored {
      assert Adjusted(s, -step) == step;
      PlaybackStopsUp(s.offset, step, Bottom(g), Top(g), n);
    } else {
      assert Adjusted(s, -step) == -step;
      PlaybackStopsDown(s.offset, step, Bottom(g), Top(g), n);
    }
  }

  /** Playback stops by itself once n ticks would cover the distance to the centred limit. */
  lemma AutoplayStops(s: State, g: Geometry, n: nat)
    requires Inv(s) && PrefsValid(s) && s.isPlaying && n > 0
    requires !s.isMirrored ==> (n as real) * Speed(s) >= s.offset + Bottom(g)
    requires s.isMirrored ==> (n as real) * Speed(s) > Top(g) - s.offset
    ensures !PlayTicks(s, g, n).isPlaying && !PlayTicks(s, g, n).playTimer
  {
    PlayTicksRepeat(s, g, n);
    PlaybackRunsOut(s, g, n);
  }

  // ---------------------------------------------------------------------------
  // The handlers as dist/script.js writes them, against mutable state

  class Prompter {
    var scrollSpeed: int
    var fontSize: int
    var isPlaying: bool
    var isMirrored: bool
    var offset: real
    var scrollTimer: bool
    var manualScrollTimer: bool
    var keysPressed: map<RemoteKey, bool>
    var content: string
    var playEnabled: bool
    var mirrorEnabled: bool
    var store: Store
    var touchStartY: real
    var lastTouchY: real

    function Snap(): State
      reads this
    {
      State(scrollSpeed, fontSize, isPlaying, isMirrored, offset, scrollTimer, manualScrollTimer,
            keysPressed, content, playEnabled, mirrorEnabled, store, touchStartY, lastTouchY)
    }

    constructor (saved: Store)
      ensures Snap() == Init(saved)
    {
      store := saved;
      scrollSpeed := LoadPref(saved, SpeedKey, DefaultSpeedTenths);
      fontSize := LoadPref(saved, FontSizeKey, DefaultFontSize);
      isPlaying := false;
      isMirrored := false;
      offset := 0.0;
      scrollTimer := false;
      manualScrollTimer := false;
      keysPressed := map[];
      content := "";
      playEnabled := false;
      mirrorEnabled := false;
      touchStartY := 0.0;
      lastTouchY := 0.0;
    }

    predicate IsHeld(k: RemoteKey)
      reads this
    {
      k in keysPressed && keysPressed[k]
    }

    method SaveScrollSpeed(speed: int)
      modifies this
      ensures Snap() == old(Snap()).(store := old(store)[SpeedKey := speed])
    {
      store := store[SpeedKey := speed];
    }

    method SaveFontSize(size: int)
      modifies this
      ensures Snap() == old(Snap()).(store := old(store)[FontSizeKey := size])
    {
      store := store[FontSizeKey := size];
    }

    method DisplayContent(text: string, g: Geometry)
      modifies this
      ensures Snap() == Loaded(old(Snap()), text, g)
    {
      ghost var before := Snap();
      content := FormatParagraphs(text);
      var o := CalculateCenterOffset(g);
      offset := o.centerOffset;
      playEnabled := true;
      mirrorEnabled := true;
      assert Snap() == before.(content := content, offset := Top(g), playEnabled := true,
                               mirrorEnabled := true);
    }

    method TogglePlayPause()
      modifies this
      ensures Snap() == Toggled(old(Snap()))
    {
      isPlaying := !isPlaying;
      if isPlaying {
        StartScrolling();
      } else {
        StopScrolling();
      }
    }

    method StartScrolling()
      modifies this
      ensures Snap() == old(Snap()).(playTimer := true)
    {
      StopScrolling();
      scrollTimer := true;
    }

    method StopScrolling()
      modifies this
      ensures Snap() == old(Snap()).(playTimer := false)
    {
      scrollTimer := false;
    }

    method AdjustSpeed(delta: int)
      modifies this
      ensures Snap() == SpeedAdjusted(old(Snap()), delta)
    {
      scrollSpeed := Clamp(scrollSpeed + delta, MinSpeedTenths, MaxSpeedTenths);
      SaveScrollSpeed(scrollSpeed);
      if isPlaying {
        StartScrolling();
      }
      if manualScrollTimer {
        manualScrollTimer := false;
        StartManualScroll();
      }
    }

    method AdjustFontSize(delta: int, g: Geometry)
      modifies this
      ensures Snap() == FontAdjusted(old(Snap()), delta, g)
    {
      fontSize := Clamp(fontSize + delta, MinFontSize, MaxFontSize);
      SaveFontSize(fontSize);
      var o := CalculateCenterOffset(g);
      offset := if isMirrored then -o.maxScroll - o.centerOffset else o.centerOffset;
    }

    method ScrollText(amount: real, g: Geometry) returns (ok: bool)
      modifies this
      ensures ok == ScrollResult(old(Snap()), amount, g).Some?
      ensures Snap() == Scrolled(old(Snap()), amount, g)
    {
      var o := CalculateCenterOffset(g);
      var adjustedAmount := if isMirrored then -amount else amount;
      if adjustedAmount < 0.0 && Abs(offset - Abs(adjustedAmount)) >= g.total - g.container + o.centerOffset {
        return false;
      } else if adjustedAmount > 0.0 && offset + adjustedAmount > o.centerOffset {
        return false;
      }
      offset := offset + adjustedAmount;
      return true;
    }

    method PlayTick(g: Geometry)
      requires scrollTimer
      modifies this
      ensures Snap() == PlayTicked(old(Snap()), g)
    {
      var ok := ScrollText(-(scrollSpeed as real / 10.0), g);
      if !ok {
        StopScrolling();
        isPlaying := false;
      }
    }

    method StartManualScroll()
      modifies this
      ensures Snap() == old(Snap()).(manualTimer := true)
    {
      manualScrollTimer := true;
    }

    method StopManualScroll()
      modifies this
      ensures Snap() == old(Snap()).(manualTimer := false)
    {
      manualScrollTimer := false;
    }

    method ManualTick(g: Geometry)
      requires manualScrollTimer
      modifies this
      ensures Snap() == ManualTicked(old(Snap()), g)
    {
      var speed := scrollSpeed as real / 10.0;
      if IsHeld(ArrowRight) {
        var _ := ScrollText(-speed, g);
      } else if IsHeld(ArrowLeft) {
        var _ := ScrollText(speed, g);
      }
    }

    method ToggleMirror(g: Geometry)
      modifies this
      ensures Snap() == MirrorToggled(old(Snap()), g)
    {
      isMirrored := !isMirrored;
      var o := CalculateCenterOffset(g);
      offset := if isMirrored then -o.maxScroll - o.centerOffset else o.centerOffset;
    }

    method HandleRemoteKey(key: string, isKeyDown: bool, g: Geometry)
      modifies this
      ensures Snap() == RemoteKeyHandled(old(Snap()), key, isKeyDown, g)
    {
      var found := Lookup(key);
      match found {
        case None =>
        case Some(DownOf(k)) =>
          keysPressed := keysPressed[k := isKeyDown];
          HandleKeyAction(k, isKeyDown, g);
        case Some(UpOf(k)) =>
          keysPressed := keysPressed[k := false];
          HandleKeyAction(k, false, g);
      }
    }

    method HandleKeyAction(k: RemoteKey, isKeyDown: bool, g: Geometry)
      modifies this
      ensures Snap() == KeyActed(old(Snap()), k, isKeyDown, g)
    {
      if !isKeyDown {
        var scrollKeysPressed := IsHeld(ArrowRight) || IsHeld(ArrowLeft);
        if !scrollKeysPressed {
          StopManualScroll();
        }
        return;
      }
      match k {
        case X => AdjustSpeed(1);
        case Y => AdjustFontSize(2, g);
        case A => AdjustFontSize(-2, g);
        case B => AdjustSpeed(-1);
        case ArrowLeft =>
          if !manualScrollTimer {
            StartManualScroll();
          }
        case ArrowRight =>
          if !manualScrollTimer {
            StartManualScroll();
          }
        case ArrowDown => TogglePlayPause();
        case ArrowUp => TogglePlayPause();
        case Mirror => ToggleMirror(g);
      }
    }

    method KeyDown(key: string, g: Geometry)
      modifies this
      ensures Snap() == KeyDowned(old(Snap()), key, g)
    {
      if Trim(content) == [] {
        return;
      }
      HandleRemoteKey(key, true, g);
      if IsBound(key) {
        return;
      }
      if key == " " {
        TogglePlayPause();
      }
    }

    method KeyUp(key: string, g: Geometry)
      modifies this
      ensures Snap() == KeyUpped(old(Snap()), key, g)
    {
      HandleRemoteKey(key, false, g);
    }

    method Wheel(deltaY: real, g: Geometry)
      modifies this
      ensures Snap() == Wheeled(old(Snap()), deltaY, g)
    {
      var scrollAmount := deltaY * 0.5;
      var _ := ScrollText(-scrollAmount, g);
    }

    method TouchStart(y: real)
      modifies this
      ensures Snap() == TouchStarted(old(Snap()), y)
    {
      touchStartY := y;
      lastTouchY := touchStartY;
    }

    method TouchMove(y: real, g: Geometry)
      modifies this
      ensures Snap() == TouchMoved(old(Snap()), y, g)
    {
      var deltaY := lastTouchY - y;
      lastTouchY := y;
      var scrollAmount := deltaY * 0.5;
      var _ := ScrollText(-scrollAmount, g);
    }

    /** The event listeners and the two intervals, dispatched. */
    method Handle(e: Event, g: Geometry)
      modifies this
      ensures Snap() == Step(old(Snap()), e, g)
    {
      match e {
        case FileLoaded(text) => DisplayContent(text, g);
        case PlayPauseClick =>
          if playEnabled {
            TogglePlayPause();
          }
        case SpeedUpClick => AdjustSpeed(1);
        case SpeedDownClick => AdjustSpeed(-1);
        case FontUpClick => AdjustFontSize(2, g);
        case FontDownClick => AdjustFontSize(-2, g);
        case MirrorClick =>
          if mirrorEnabled {
            ToggleMirror(g);
          }
        case KeyDown(key) => KeyDown(key, g);
        case KeyUp(key) => KeyUp(key, g);
        case Wheel(deltaY) => Wheel(deltaY, g);
        case TouchStart(y) => TouchStart(y);
        case TouchMove(y) => TouchMove(y, g);
        case PlayTick =>
          if scrollTimer {
            PlayTick(g);
          }
        case ManualTick =>
          if manualScrollTimer {
            ManualTick(g);
          }
      }
    }
  }
}
