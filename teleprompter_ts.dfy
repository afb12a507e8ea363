/**
 * script.ts: the teleprompter with the remote-key table and mirroring. The content starts at
 * `centerOffset` (half the container height, fixed at start-up) but `scrollText` uses the
 * top-anchored limits: top 0 and bottom `totalHeight - containerHeight`.
 *
 * `State` holds the closure variables and the page state they drive; the functions below are the
 * handlers as transitions on it, and class `Prompter` is the same handlers written against
 * mutable fields, each proved to perform its transition.
 */
module TeleprompterTs {
  import opened Wrappers
  import opened Paragraphs
  import opened Adjusters
  import opened ScrollBounds
  import opened RemoteKeys

  datatype State = State(
    speed: int,                          // scrollSpeed, in tenths
    fontSize: int,
    isPlaying: bool,
    isMirrored: bool,
    offset: real,                        // the content's translateY
    playTimer: bool,                     // scrollInterval is running
    manualTimer: bool,                   // manualScrollInterval is running
    keysPressed: map<RemoteKey, bool>,
    content: string,                     // the content element's innerHTML
    playEnabled: bool,                   // the play/pause button is not disabled
    mirrorEnabled: bool,                 // the mirror button is not disabled
    centerOffset: real)                  // fixed when the page is set up

  function Init(containerHeight: real): State {
    State(DefaultSpeedTenths, DefaultFontSize, false, false, 0.0, false, false, map[], "",
          false, false, containerHeight / 2.0)
  }

  function Speed(s: State): real {
    s.speed as real / 10.0
  }

  predicate Held(s: State, k: RemoteKey) {
    k in s.keysPressed && s.keysPressed[k]
  }

  predicate ScrollKeyHeld(s: State) {
    Held(s, ArrowRight) || Held(s, ArrowLeft)
  }

  /** What every reachable state satisfies: speed and font size within their limits, the play
      timer running exactly while playing, and the manual timer running exactly while a
      directional key is held. (That the font size stays even is `RunKeepsFontEven`.) */
  ghost predicate Inv(s: State) {
    MinSpeedTenths <= s.speed <= MaxSpeedTenths
    && MinFontSize <= s.fontSize <= MaxFontSize
    && s.playTimer == s.isPlaying
    && s.manualTimer == ScrollKeyHeld(s)
  }

  /** `displayContent` */
  function Loaded(s: State, text: string): State {
    s.(content := FormatParagraphs(text), offset := s.centerOffset,
       playEnabled := true, mirrorEnabled := true)
  }

  /** `togglePlayPause`: `startScrolling` clears the old interval before it sets a new one. */
  function Toggled(s: State): State {
    var playing := !s.isPlaying;
    s.(isPlaying := playing, playTimer := playing)
  }

  /** `adjustSpeed`: restarts whichever timers are running. */
  function SpeedAdjusted(s: State, delta: int): State {
    s.(speed := AdjustedSpeed(s.speed, delta), playTimer := s.isPlaying || s.playTimer)
  }

  /** `adjustFontSize` */
  function FontAdjusted(s: State, delta: int): State {
    s.(fontSize := AdjustedFontSize(s.fontSize, delta))
  }

  function Adjusted(s: State, amount: real): real {
    if s.isMirrored then -amount else amount
  }

  /** The outcome of `scrollText(amount)`: the new offset, or None when a limit rejects it. */
  function ScrollResult(s: State, amount: real, g: Geometry): Option<real> {
    Attempt(s.offset, Adjusted(s, amount), MaxScroll(g), 0.0)
  }

  function Scrolled(s: State, amount: real, g: Geometry): State {
    match ScrollResult(s, amount, g)
    case None => s
    case Some(o) => s.(offset := o)
  }

  /** One tick of the playback interval. */
  function PlayTicked(s: State, g: Geometry): (r: State)
    ensures ScrollResult(s, -Speed(s), g).None? ==> r == s.(isPlaying := false, playTimer := false)
    ensures ScrollResult(s, -Speed(s), g).Some? ==> r == s.(offset := s.offset + Adjusted(s, -Speed(s)))
  {
    if ScrollResult(s, -Speed(s), g).Some? then Scrolled(s, -Speed(s), g)
    else s.(playTimer := false, isPlaying := false)
  }

  /** One tick of the manual interval: down while arrowRight is held, else up while arrowLeft is. */
  function ManualTicked(s: State, g: Geometry): State {
    if Held(s, ArrowRight) then Scrolled(s, -Speed(s), g)
    else if Held(s, ArrowLeft) then Scrolled(s, Speed(s), g)
    else s
  }

  /** `toggleMirror` */
  function MirrorToggled(s: State, g: Geometry): State {
    var mirrored := !s.isMirrored;
    s.(isMirrored := mirrored, offset := MirrorAnchor(mirrored, MaxScroll(g), s.centerOffset))
  }

  /** The key-down switch of `handleKeyAction`. */
  function KeyPressed(s: State, k: RemoteKey, g: Geometry): (r: State)
    ensures r.keysPressed == s.keysPressed
  {
    match k
    case X => SpeedAdjusted(s, 1)
    case Y => FontAdjusted(s, 2)
    case A => FontAdjusted(s, -2)
    case B => SpeedAdjusted(s, -1)
    case ArrowLeft => s.(manualTimer := true)
    case ArrowRight => s.(manualTimer := true)
    case ArrowDown => Toggled(s)
    case ArrowUp => Toggled(s)
    case Mirror => MirrorToggled(s, g)
  }

  /** The key-up branch of `handleKeyAction`: manual scrolling stops once no directional key is held. */
  function KeyReleased(s: State): (r: State)
    ensures r.keysPressed == s.keysPressed
  {
    if ScrollKeyHeld(s) then s else s.(manualTimer := false)
  }

  /** `handleKeyAction` */
  function KeyActed(s: State, k: RemoteKey, isKeyDown: bool, g: Geometry): State {
    if isKeyDown then KeyPressed(s, k, g) else KeyReleased(s)
  }

  /** What `handleRemoteKey` does once its search of the table has ended with `m`: it records the
      key as held or released and calls `handleKeyAction`, which for an up character (always
      passed as a release) takes its key-up branch. */
  function Dispatched(s: State, m: Option<KeyMatch>, isKeyDown: bool, g: Geometry): State {
    match m
    case None => s
    case Some(DownOf(k)) => KeyActed(s.(keysPressed := s.keysPressed[k := isKeyDown]), k, isKeyDown, g)
    case Some(UpOf(k)) => KeyReleased(s.(keysPressed := s.keysPressed[k := false]))
  }

  /** `handleRemoteKey` */
  function RemoteKeyHandled(s: State, key: string, isKeyDown: bool, g: Geometry): State {
    Dispatched(s, Decode(key), isKeyDown, g)
  }

  /** The keydown listener. */
  function KeyDowned(s: State, key: string, g: Geometry): State {
    if Trim(s.content) == [] then s
    else
      var s1 := RemoteKeyHandled(s, key, true, g);
      if IsBound(key) then s1
      else if key == " " then Toggled(s1)
      else s1
  }

  /** The keyup listener. */
  function KeyUpped(s: State, key: string, g: Geometry): State {
    RemoteKeyHandled(s, key, false, g)
  }

  /** What the page can deliver to the script. */
  datatype Event =
    | FileLoaded(text: string)
    | PlayPauseClick
    | SpeedUpClick
    | SpeedDownClick
    | FontUpClick
    | FontDownClick
    | MirrorClick
    | KeyDown(key: string)
    | KeyUp(key: string)
    | PlayTick
    | ManualTick

  /** The listeners wired up in script.ts; a disabled button delivers no click, and a timer that is
      not running delivers no tick. `g` is the page geometry when the event arrives. */
  function Step(s: State, e: Event, g: Geometry): State {
    match e
    case FileLoaded(text) => Loaded(s, text)
    case PlayPauseClick => if s.playEnabled then Toggled(s) else s
    case SpeedUpClick => SpeedAdjusted(s, 1)
    case SpeedDownClick => SpeedAdjusted(s, -1)
    case FontUpClick => FontAdjusted(s, 2)
    case FontDownClick => FontAdjusted(s, -2)
    case MirrorClick => if s.mirrorEnabled then MirrorToggled(s, g) else s
    case KeyDown(key) => KeyDowned(s, key, g)
    case KeyUp(key) => KeyUpped(s, key, g)
    case PlayTick => PlayTimerFired(s, g)
    case ManualTick => if s.manualTimer then ManualTicked(s, g) else s
  }

  /** The playback interval fires: it ticks if it is running. */
  function PlayTimerFired(s: State, g: Geometry): State {
    if s.playTimer then PlayTicked(s, g) else s
  }

  function Run(s: State, events: seq<(Event, Geometry)>): State
    decreases |events|
  {
    if events == [] then s else Run(Step(s, events[0].0, events[0].1), events[1..])
  }

  // ---------------------------------------------------------------------------
  // The invariant

  lemma InitInv(containerHeight: real)
    ensures Inv(Init(containerHeight))
    ensures !Init(containerHeight).playEnabled && !Init(containerHeight).mirrorEnabled
  {
  }

  /** A key-down action reached through `handleRemoteKey` finds its key already marked held; it
      restores the invariant from there. */
  lemma KeyPressedRestoresInv(s: State, k: RemoteKey, g: Geometry)
    requires MinSpeedTenths <= s.speed <= MaxSpeedTenths
    requires MinFontSize <= s.fontSize <= MaxFontSize
    requires s.playTimer == s.isPlaying
    requires Held(s, k)
    requires k != ArrowLeft && k != ArrowRight ==> s.manualTimer == ScrollKeyHeld(s)
    ensures Inv(KeyPressed(s, k, g))
  {
    match k {
      case X => case Y => case A => case B => case Mirror =>
      case ArrowLeft => case ArrowRight => case ArrowUp => case ArrowDown =>
    }
  }

  lemma DownCharKeepsInv(s: State, k: RemoteKey, isKeyDown: bool, g: Geometry)
    requires Inv(s)
    ensures Inv(Dispatched(s, Some(DownOf(k)), isKeyDown, g))
  {
    if isKeyDown {
      KeyPressedRestoresInv(s.(keysPressed := s.keysPressed[k := true]), k, g);
    }
  }

  lemma UpCharKeepsInv(s: State, k: RemoteKey, g: Geometry)
    requires Inv(s)
    ensures Inv(Dispatched(s, Some(UpOf(k)), false, g))
  {
  }

  lemma DispatchedKeepsInv(s: State, m: Option<KeyMatch>, isKeyDown: bool, g: Geometry)
    requires Inv(s)
    ensures Inv(Dispatched(s, m, isKeyDown, g))
  {
    match m {
      case None =>
      case Some(DownOf(k)) => DownCharKeepsInv(s, k, isKeyDown, g);
      case Some(UpOf(k)) => UpCharKeepsInv(s, k, g);
    }
  }

  lemma RemoteKeyKeepsInv(s: State, key: string, isKeyDown: bool, g: Geometry)
    requires Inv(s)
    ensures Inv(RemoteKeyHandled(s, key, isKeyDown, g))
  {
    DispatchedKeepsInv(s, Decode(key), isKeyDown, g);
  }

  lemma KeyDownKeepsInv(s: State, key: string, g: Geometry)
    requires Inv(s)
    ensures Inv(KeyDowned(s, key, g))
  {
    if Trim(s.content) != [] {
      RemoteKeyKeepsInv(s, key, true, g);
      var s1 := RemoteKeyHandled(s, key, true, g);
      assert Inv(Toggled(s1));
    }
  }

  lemma PlayTickKeepsInv(s: State, g: Geometry)
    requires Inv(s)
    ensures Inv(PlayTimerFired(s, g))
  {
  }

  lemma ManualTickKeepsInv(s: State, g: Geometry)
    requires Inv(s)
    ensures Inv(ManualTicked(s, g))
  {
  }

  lemma StepKeepsInv(s: State, e: Event, g: Geometry)
    requires Inv(s)
    ensures Inv(Step(s, e, g))
  {
    match e
    case KeyDown(key) =>
      KeyDownKeepsInv(s, key, g);
    case KeyUp(key) =>
      RemoteKeyKeepsInv(s, key, false, g);
    case PlayTick =>
      PlayTickKeepsInv(s, g);
    case ManualTick =>
      ManualTickKeepsInv(s, g);
    case _ =>
  }

  /** Whatever the user does, the invariant holds: at most one playback timer, none while paused,
      and the manual timer exactly while a directional key is held. */
  lemma {:induction false} RunKeepsInv(s: State, events: seq<(Event, Geometry)>)
    requires Inv(s)
    ensures Inv(Run(s, events))
    decreases |events|
  {
    if events != [] {
      StepKeepsInv(s, events[0].0, events[0].1);
      RunKeepsInv(Step(s, events[0].0, events[0].1), events[1..]);
    }
  }

  /** The font sizes one event can lead to: the same one, or one clamped press of 2 pixels up or
      down. */
  ghost predicate FontStep(before: int, after: int) {
    after == before || after == AdjustedFontSize(before, 2) || after == AdjustedFontSize(before, -2)
  }

  lemma KeyPressedFontStep(s: State, k: RemoteKey, g: Geometry)
    ensures FontStep(s.fontSize, KeyPressed(s, k, g).fontSize)
  {
    match k {
      case X => case Y => case A => case B => case Mirror =>
      case ArrowLeft => case ArrowRight => case ArrowUp => case ArrowDown =>
    }
  }

  lemma DownCharFontStep(s: State, k: RemoteKey, isKeyDown: bool, g: Geometry)
    ensures FontStep(s.fontSize, Dispatched(s, Some(DownOf(k)), isKeyDown, g).fontSize)
  {
    if isKeyDown {
      KeyPressedFontStep(s.(keysPressed := s.keysPressed[k := true]), k, g);
    }
  }

  lemma DispatchedFontStep(s: State, m: Option<KeyMatch>, isKeyDown: bool, g: Geometry)
    ensures FontStep(s.fontSize, Dispatched(s, m, isKeyDown, g).fontSize)
  {
    match m {
      case None =>
      case Some(DownOf(k)) => DownCharFontStep(s, k, isKeyDown, g);
      case Some(UpOf(k)) =>
    }
  }

  lemma KeyDownFontStep(s: State, key: string, g: Geometry)
    ensures FontStep(s.fontSize, KeyDowned(s, key, g).fontSize)
  {
    if Trim(s.content) != [] {
      DispatchedFontStep(s, Decode(key), true, g);
    }
  }

  lemma StepFontStep(s: State, e: Event, g: Geometry)
    ensures FontStep(s.fontSize, Step(s, e, g).fontSize)
  {
    match e
    case KeyDown(key) => KeyDownFontStep(s, key, g);
    case KeyUp(key) => DispatchedFontStep(s, Decode(key), false, g);
    case _ =>
  }

  /** The font size starts even (24) and moves in steps of 2 within even limits, so it stays even. */
  lemma {:induction false} RunKeepsFontEven(s: State, events: seq<(Event, Geometry)>)
    requires s.fontSize % 2 == 0
    ensures Run(s, events).fontSize % 2 == 0
    decreases |events|
  {
    if events != [] {
      var next := Step(s, events[0].0, events[0].1);
      StepFontStep(s, events[0].0, events[0].1);
      assert AdjustedFontSize(s.fontSize, 2) % 2 == 0 && AdjustedFontSize(s.fontSize, -2) % 2 == 0;
      assert next.fontSize % 2 == 0;
      RunKeepsFontEven(next, events[1..]);
      assert Run(s, events) == Run(next, events[1..]);
    }
  }

  // ---------------------------------------------------------------------------
  // Properties of single handlers

  /** Toggling play twice restores the play state and its timer. */
  lemma ToggleTwice(s: State)
    requires Inv(s)
    ensures Toggled(Toggled(s)) == s
    ensures Toggled(s).isPlaying != s.isPlaying && Toggled(s).playTimer == Toggled(s).isPlaying
  {
  }

  /** Toggling the mirror twice restores the orientation and re-anchors for it. */
  lemma MirrorTwice(s: State, g1: Geometry, g2: Geometry)
    ensures MirrorToggled(MirrorToggled(s, g1), g2).isMirrored == s.isMirrored
    ensures MirrorToggled(MirrorToggled(s, g1), g2).offset
         == MirrorAnchor(s.isMirrored, MaxScroll(g2), s.centerOffset)
    ensures !s.isMirrored ==> MirrorToggled(MirrorToggled(s, g1), g2).offset == s.centerOffset
  {
  }

  /** The bookkeeping of `keysPressed` once the table search has found a binding half: its down
      character pressed marks the key held, its up character pressed marks it released, and either
      character's key-up marks it released. */
  lemma DispatchedBookkeeping(s: State, k: RemoteKey, g: Geometry)
    ensures Dispatched(s, Some(DownOf(k)), true, g).keysPressed == s.keysPressed[k := true]
    ensures Dispatched(s, Some(UpOf(k)), true, g).keysPressed == s.keysPressed[k := false]
    ensures Dispatched(s, Some(DownOf(k)), false, g).keysPressed == s.keysPressed[k := false]
    ensures Dispatched(s, Some(UpOf(k)), false, g).keysPressed == s.keysPressed[k := false]
  {
  }

  /** The same bookkeeping from the characters the remote sends. */
  lemma KeysPressedBookkeeping(s: State, k: RemoteKey, g: Geometry)
    ensures RemoteKeyHandled(s, Down(k), true, g).keysPressed == s.keysPressed[k := true]
    ensures RemoteKeyHandled(s, Up(k), true, g).keysPressed == s.keysPressed[k := false]
    ensures RemoteKeyHandled(s, Down(k), false, g).keysPressed == s.keysPressed[k := false]
    ensures RemoteKeyHandled(s, Up(k), false, g).keysPressed == s.keysPressed[k := false]
  {
    DecodeCharOf(DownOf(k));
    DecodeCharOf(UpOf(k));
    assert Decode(Down(k)) == Some(DownOf(k)) && Decode(Up(k)) == Some(UpOf(k));
    DispatchedBookkeeping(s, k, g);
  }

  /** A character outside the table changes nothing, on key-down (unless it is the space bar) or
      key-up. */
  lemma UnboundKeyIgnored(s: State, key: string, isKeyDown: bool, g: Geometry)
    requires !IsBound(key)
    ensures RemoteKeyHandled(s, key, isKeyDown, g) == s
    ensures key != " " ==> KeyDowned(s, key, g) == s
    ensures KeyUpped(s, key, g) == s
  {
    BoundIffDecoded(key);
  }

  /** Releasing a key stops the manual timer exactly when neither directional key is still held. */
  lemma ReleaseStopsManual(s: State, key: string, g: Geometry)
    requires Inv(s)
    ensures KeyUpped(s, key, g).manualTimer <==> ScrollKeyHeld(KeyUpped(s, key, g))
  {
    RemoteKeyKeepsInv(s, key, false, g);
  }

  /** Keydown does nothing while there is no content; a bound character never reaches the
      space-bar fallback; the space bar toggles play. */
  lemma KeyDownDispatch(s: State, key: string, g: Geometry)
    ensures Trim(s.content) == [] ==> KeyDowned(s, key, g) == s
    ensures Trim(s.content) != [] && IsBound(key) ==> KeyDowned(s, key, g) == RemoteKeyHandled(s, key, true, g)
    ensures Trim(s.content) != [] && key == " " ==> KeyDowned(s, key, g) == Toggled(s)
  {
    if key == " " {
      SpaceUnbound();
    }
  }
  /** A remote button's down character, arriving as a keydown once content is loaded, marks its
      key held and performs that key's action. */
  lemma RemoteDownActs(s: State, k: RemoteKey, g: Geometry)
    requires Trim(s.content) != []
    ensures KeyDowned(s, Down(k), g) == KeyPressed(s.(keysPressed := s.keysPressed[k := true]), k, g)
  {
    DecodeDown(k);
    BoundIffDecoded(Down(k));
  }

  /** What each button of the remote does when its down character arrives with content loaded:
      x ("y") and b ("j") step the speed up and down by a clamped tenth, restarting playback;
      y ("u") and a ("h") step the font size up and down by a clamped 2 pixels; arrowLeft ("a")
      and arrowRight ("d") start manual scrolling; arrowUp ("w") and arrowDown ("x") toggle play;
      mirror ("o") flips the orientation and re-anchors the content. The key is marked held. */
  lemma RemoteButtonActs(s: State, k: RemoteKey, g: Geometry)
    requires Trim(s.content) != []
    ensures var held := s.keysPressed[k := true];
      match k
      case X => KeyDowned(s, Down(k), g) == s.(keysPressed := held, speed := AdjustedSpeed(s.speed, 1), playTimer := s.isPlaying || s.playTimer)
      case B => KeyDowned(s, Down(k), g) == s.(keysPressed := held, speed := AdjustedSpeed(s.speed, -1), playTimer := s.isPlaying || s.playTimer)
      case Y => KeyDowned(s, Down(k), g) == s.(keysPressed := held, fontSize := AdjustedFontSize(s.fontSize, 2))
      case A => KeyDowned(s, Down(k), g) == s.(keysPressed := held, fontSize := AdjustedFontSize(s.fontSize, -2))
      case ArrowLeft => KeyDowned(s, Down(k), g) == s.(keysPressed := held, manualTimer := true)
      case ArrowRight => KeyDowned(s, Down(k), g) == s.(keysPressed := held, manualTimer := true)
      case ArrowUp => KeyDowned(s, Down(k), g) == s.(keysPressed := held, isPlaying := !s.isPlaying,
                                                      playTimer := !s.isPlaying)
      case ArrowDown => KeyDowned(s, Down(k), g) == s.(keysPressed := held, isPlaying := !s.isPlaying,
                                                        playTimer := !s.isPlaying)
      case Mirror => KeyDowned(s, Down(k), g) == s.(keysPressed := held, isMirrored := !s.isMirrored,
                                                     offset := MirrorAnchor(!s.isMirrored, MaxScroll(g), s.centerOffset))
  {
    RemoteDownActs(s, k, g);
    match k {
      case X => case B => case Y => case A => case Mirror =>
      case ArrowLeft => case ArrowRight => case ArrowUp => case ArrowDown =>
    }
  }



  /** As written, the content is placed at `centerOffset` while the top limit is 0: with a
      positive `centerOffset`, no upward scroll is accepted from the load position. */
  lemma NoUpwardScrollAfterLoad(s: State, text: string, amount: real, g: Geometry)
    requires s.centerOffset > 0.0 && !s.isMirrored && amount > 0.0
    ensures ScrollResult(Loaded(s, text), amount, g) == None
  {
  }

  // ---------------------------------------------------------------------------
  // Playback

  /** The playback interval firing n times with the geometry unchanged. */
  function PlayTicks(s: State, g: Geometry, n: nat): State
    decreases n
  {
    if n == 0 then s else PlayTicks(PlayTimerFired(s, g), g, n - 1)
  }

  lemma {:induction false} StoppedStaysStopped(s: State, g: Geometry, n: nat)
    requires Inv(s) && !s.isPlaying
    ensures PlayTicks(s, g, n) == s
    decreases n
  {
    if n > 0 {
      StoppedStaysStopped(s, g, n - 1);
    }
  }

  /** One tick of running playback: either the attempt of the mirror-adjusted `-speed` is
      accepted and playback goes on from its offset, or it is rejected and playback stops. */
  lemma PlayTickOutcome(s: State, g: Geometry)
    requires Inv(s) && s.isPlaying
    ensures PlayTimerFired(s, g).isPlaying
        ==> Attempt(s.offset, Adjusted(s, -Speed(s)), MaxScroll(g), 0.0) == Some(PlayTimerFired(s, g).offset)
    ensures PlayTimerFired(s, g).speed == s.speed && PlayTimerFired(s, g).isMirrored == s.isMirrored
    ensures Inv(PlayTimerFired(s, g))
  {
    PlayTickKeepsInv(s, g);
  }

  /** While playback keeps running, n ticks are n accepted attempts of the mirror-adjusted `-speed`. */
  lemma {:induction false} PlayTicksRepeat(s: State, g: Geometry, n: nat)
    requires Inv(s) && s.isPlaying
    ensures PlayTicks(s, g, n).isPlaying ==>
      Repeat(s.offset, Adjusted(s, -Speed(s)), MaxScroll(g), 0.0, n) == Some(PlayTicks(s, g, n).offset)
    ensures PlayTicks(s, g, n).speed == s.speed && PlayTicks(s, g, n).isMirrored == s.isMirrored
    ensures Inv(PlayTicks(s, g, n))
    decreases n
  {
    if n > 0 {
      var s1 := PlayTimerFired(s, g);
      PlayTickOutcome(s, g);
      if s1.isPlaying {
        PlayTicksRepeat(s1, g, n - 1);
      } else {
        StoppedStaysStopped(s1, g, n - 1);
      }
    }
  }

  /** The attempts playback makes, n ticks of the current speed, run out once they would cover
      the distance to the limit in the playing direction. */
  lemma PlaybackRunsOut(s: State, g: Geometry, n: nat)
    requires Inv(s) && n > 0
    requires !s.isMirrored ==> (n as real) * Speed(s) >= s.offset + MaxScroll(g)
    requires s.isMirrored ==> (n as real) * Speed(s) > -s.offset
    ensures Repeat(s.offset, Adjusted(s, -Speed(s)), MaxScroll(g), 0.0, n) == None
  {
    var step := Speed(s);
    if s.isMirrored {
      assert Adjusted(s, -step) == step;
      PlaybackStopsUp(s.offset, step, MaxScroll(g), 0.0, n);
    } else {
      assert Adjusted(s, -step) == -step;
      PlaybackStopsDown(s.offset, step, MaxScroll(g), 0.0, n);
    }
  }

  /** Playback stops by itself: once n ticks of the current speed would cover the distance to the
      limit in the playing direction, playback is no longer running after n ticks. */
  lemma AutoplayStops(s: State, g: Geometry, n: nat)
    requires Inv(s) && s.isPlaying && n > 0
    requires !s.isMirrored ==> (n as real) * Speed(s) >= s.offset + MaxScroll(g)
    requires s.isMirrored ==> (n as real) * Speed(s) > -s.offset
    ensures !PlayTicks(s, g, n).isPlaying && !PlayTicks(s, g, n).playTimer
  {
    PlayTicksRepeat(s, g, n);
    PlaybackRunsOut(s, g, n);
  }

  // ---------------------------------------------------------------------------
  // The handlers as script.ts writes them, against mutable state

  class Prompter {
    var scrollSpeed: int
    var fontSize: int
    var isPlaying: bool
    var isMirrored: bool
    var offset: real
    var scrollTimer: bool
    var manualScrollTimer: bool
    var keysPressed: map<RemoteKey, bool>
    var content: string
    var playEnabled: bool
    var mirrorEnabled: bool
    const centerOffset: real

    function Snap(): State
      reads this
    {
      State(scrollSpeed, fontSize, isPlaying, isMirrored, offset, scrollTimer, manualScrollTimer,
            keysPressed, content, playEnabled, mirrorEnabled, centerOffset)
    }

    constructor (containerHeight: real)
      ensures Snap() == Init(containerHeight)
    {
      scrollSpeed := DefaultSpeedTenths;
      fontSize := DefaultFontSize;
      isPlaying := false;
      isMirrored := false;
      offset := 0.0;
      scrollTimer := false;
      manualScrollTimer := false;
      keysPressed := map[];
      content := "";
      playEnabled := false;
      mirrorEnabled := false;
      centerOffset := containerHeight / 2.0;
    }

    predicate IsHeld(k: RemoteKey)
      reads this
    {
      k in keysPressed && keysPressed[k]
    }

    method DisplayContent(text: string)
      modifies this
      ensures Snap() == Loaded(old(Snap()), text)
    {
      ghost var before := Snap();
      content := FormatParagraphs(text);
      offset := centerOffset;
      playEnabled := true;
      mirrorEnabled := true;
      assert Snap() == before.(content := content, offset := centerOffset, playEnabled := true,
                               mirrorEnabled := true);
    }

    method TogglePlayPause()
      modifies this
      ensures Snap() == Toggled(old(Snap()))
    {
      isPlaying := !isPlaying;
      if isPlaying {
        StartScrolling();
      } else {
        StopScrolling();
      }
    }

    method StartScrolling()
      modifies this
      ensures Snap() == old(Snap()).(playTimer := true)
    {
      StopScrolling();
      scrollTimer := true;
    }

    method StopScrolling()
      modifies this
      ensures Snap() == old(Snap()).(playTimer := false)
    {
      scrollTimer := false;
    }

    method AdjustSpeed(delta: int)
      modifies this
      ensures Snap() == SpeedAdjusted(old(Snap()), delta)
    {
      scrollSpeed := Clamp(scrollSpeed + delta, MinSpeedTenths, MaxSpeedTenths);
      if isPlaying {
        StartScrolling();
      }
      if manualScrollTimer {
        manualScrollTimer := false;
        StartManualScroll();
      }
    }

    method AdjustFontSize(delta: int)
      modifies this
      ensures Snap() == FontAdjusted(old(Snap()), delta)
    {
      fontSize := Clamp(fontSize + delta, MinFontSize, MaxFontSize);
    }

    method ScrollText(amount: real, g: Geometry) returns (ok: bool)
      modifies this
      ensures ok == ScrollResult(old(Snap()), amount, g).Some?
      ensures Snap() == Scrolled(old(Snap()), amount, g)
    {
      var adjustedAmount := if isMirrored then -amount else amount;
      if adjustedAmount < 0.0 && Abs(offset - Abs(adjustedAmount)) >= g.total - g.container {
        return false;
      } else if adjustedAmount > 0.0 && offset + adjustedAmount > 0.0 {
        return false;
      }
      offset := offset + adjustedAmount;
      return true;
    }

    method PlayTick(g: Geometry)
      requires scrollTimer
      modifies this
      ensures Snap() == PlayTicked(old(Snap()), g)
    {
      var ok := ScrollText(-(scrollSpeed as real / 10.0), g);
      if !ok {
        StopScrolling();
        isPlaying := false;
      }
    }

    method StartManualScroll()
      modifies this
      ensures Snap() == old(Snap()).(manualTimer := true)
    {
      manualScrollTimer := true;
    }

    method StopManualScroll()
      modifies this
      ensures Snap() == old(Snap()).(manualTimer := false)
    {
      manualScrollTimer := false;
    }

    method ManualTick(g: Geometry)
      requires manualScrollTimer
      modifies this
      ensures Snap() == ManualTicked(old(Snap()), g)
    {
      var speed := scrollSpeed as real / 10.0;
      if IsHeld(ArrowRight) {
        var _ := ScrollText(-speed, g);
      } else if IsHeld(ArrowLeft) {
        var _ := ScrollText(speed, g);
      }
    }

    method ToggleMirror(g: Geometry)
      modifies this
      ensures Snap() == MirrorToggled(old(Snap()), g)
    {
      isMirrored := !isMirrored;
      var maxScroll := g.total - g.container;
      offset := if isMirrored then -maxScroll - centerOffset else centerOffset;
    }

    method HandleRemoteKey(key: string, isKeyDown: bool, g: Geometry)
      modifies this
      ensures Snap() == RemoteKeyHandled(old(Snap()), key, isKeyDown, g)
    {
      var found := Lookup(key);
      match found {
        case None =>
        case Some(DownOf(k)) =>
          keysPressed := keysPressed[k := isKeyDown];
          HandleKeyAction(k, isKeyDown, g);
        case Some(UpOf(k)) =>
          keysPressed := keysPressed[k := false];
          HandleKeyAction(k, false, g);
      }
    }

    method HandleKeyAction(k: RemoteKey, isKeyDown: bool, g: Geometry)
      modifies this
      ensures Snap() == KeyActed(old(Snap()), k, isKeyDown, g)
    {
      if !isKeyDown {
        var scrollKeysPressed := IsHeld(ArrowRight) || IsHeld(ArrowLeft);
        if !scrollKeysPressed {
          StopManualScroll();
        }
        return;
      }
      match k {
        case X => AdjustSpeed(1);
        case Y => AdjustFontSize(2);
        case A => AdjustFontSize(-2);
        case B => AdjustSpeed(-1);
        case ArrowLeft =>
          if !manualScrollTimer {
            StartManualScroll();
          }
        case ArrowRight =>
          if !manualScrollTimer {
            StartManualScroll();
          }
        case ArrowDown => TogglePlayPause();
        case ArrowUp => TogglePlayPause();
        case Mirror => ToggleMirror(g);
      }
    }

    method KeyDown(key: string, g: Geometry)
      modifies this
      ensures Snap() == KeyDowned(old(Snap()), key, g)
    {
      if Trim(content) == [] {
        return;
      }
      HandleRemoteKey(key, true, g);
      if IsBound(key) {
        return;
      }
      if key == " " {
        TogglePlayPause();
      }
    }

    method KeyUp(key: string, g: Geometry)
      modifies this
      ensures Snap() == KeyUpped(old(Snap()), key, g)
    {
      HandleRemoteKey(key, false, g);
    }

    /** The event listeners and the two intervals, dispatched. */
    method Handle(e: Event, g: Geometry)
      modifies this
      ensures Snap() == Step(old(Snap()), e, g)
    {
      match e {
        case FileLoaded(text) => DisplayContent(text);
        case PlayPauseClick =>
          if playEnabled {
            TogglePlayPause();
          }
        case SpeedUpClick => AdjustSpeed(1);
        case SpeedDownClick => AdjustSpeed(-1);
        case FontUpClick => AdjustFontSize(2);
        case FontDownClick => AdjustFontSize(-2);
        case MirrorClick =>
          if mirrorEnabled {
            ToggleMirror(g);
          }
        case KeyDown(key) => KeyDown(key, g);
        case KeyUp(key) => KeyUp(key, g);
        case PlayTick =>
          if scrollTimer {
            PlayTick(g);
          }
        case ManualTick =>
          if manualScrollTimer {
            ManualTick(g);
          }
      }
    }
  }
}
