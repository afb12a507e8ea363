/**
 * script.js: the early teleprompter. It has no mirroring, no font-size control, no stored
 * preferences and no remote table: the content starts at offset 0, `scrollText` checks the
 * top-anchored limits on the raw amount, and the keyboard is read directly, with `keysPressed`
 * holding every key that went down since it last came up.
 *
 * `State` holds the closure variables and the page state they drive; the functions are the
 * handlers as transitions, and class `Prompter` performs them on mutable fields.
 */
module TeleprompterEarly {
  import opened Wrappers
  import opened Paragraphs
  import opened Adjusters
  import opened ScrollBounds

  /** The keys that drive manual scrolling: y/Y down, j/J up. */
  const ManualKeys: set<string> := {"y", "Y", "j", "J"}

  datatype State = State(
    speed: int,                          // scrollSpeed, in tenths
    isPlaying: bool,
    offset: real,                        // the content's translateY
    playTimer: bool,                     // scrollInterval is running
    manualTimer: bool,                   // manualScrollInterval is running
    pressed: set<string>,                // the keys of keysPressed
    content: string,                     // the content element's innerHTML
    playEnabled: bool)                   // the play/pause button is not disabled

  function Init(): State {
    State(DefaultSpeedTenths, false, 0.0, false, false, {}, "", false)
  }

  function Speed(s: State): real {
    s.speed as real / 10.0
  }

  predicate ManualKeyHeld(pressed: set<string>) {
    "y" in pressed || "Y" in pressed || "j" in pressed || "J" in pressed
  }

  /** What every reachable state satisfies: speed within its limits, the play timer running
      exactly while playing, and the manual timer running exactly while one of y/Y/j/J is held. */
  ghost predicate Inv(s: State) {
    MinSpeedTenths <= s.speed <= MaxSpeedTenths
    && s.playTimer == s.isPlaying
    && s.manualTimer == ManualKeyHeld(s.pressed)
  }

  /** `displayContent` */
  function Loaded(s: State, text: string): State {
    s.(content := FormatParagraphs(text), offset := 0.0, playEnabled := true)
  }

  /** `togglePlayPause` */
  function Toggled(s: State): State {
    var playing := !s.isPlaying;
    s.(isPlaying := playing, playTimer := playing)
  }

  /** `adjustSpeed`: restarts whichever timers are running. */
  function SpeedAdjusted(s: State, delta: int): State {
    s.(speed := AdjustedSpeed(s.speed, delta), playTimer := s.isPlaying || s.playTimer)
  }

  /** The outcome of `scrollText(amount)`: limits top 0 and bottom `totalHeight - containerHeight`. */
  function ScrollResult(s: State, amount: real, g: Geometry): Option<real> {
    Attempt(s.offset, amount, MaxScroll(g), 0.0)
  }

  function Scrolled(s: State, amount: real, g: Geometry): State {
    match ScrollResult(s, amount, g)
    case None => s
    case Some(o) => s.(offset := o)
  }

  /** One tick of the playback interval. */
  function PlayTicked(s: State, g: Geometry): (r: State)
    ensures ScrollResult(s, -Speed(s), g).None? ==> r == s.(isPlaying := false, playTimer := false)
    ensures ScrollResult(s, -Speed(s), g).Some? ==> r == s.(offset := s.offset - Speed(s))
  {
    if ScrollResult(s, -Speed(s), g).Some? then Scrolled(s, -Speed(s), g)
    else s.(playTimer := false, isPlaying := false)
  }

  /** One tick of the manual interval: down while y or Y is held, else up while j or J is. */
  function ManualTicked(s: State, g: Geometry): State {
    if "y" in s.pressed || "Y" in s.pressed then Scrolled(s, -Speed(s), g)
    else if "j" in s.pressed || "J" in s.pressed then Scrolled(s, Speed(s), g)
    else s
  }

  /** The cases of the keydown switch. */
  datatype KeyAction = TogglePlay | SpeedUp | SpeedDown | StartManual | NoAction

  function ActionOf(key: string): KeyAction {
    if key == " " || key == "q" || key == "Q" then TogglePlay
    else if key == "ArrowUp" then SpeedUp
    else if key == "ArrowDown" then SpeedDown
    else if key in ManualKeys then StartManual
    else NoAction
  }

  /** Each case of the switch is reached by exactly its keys. */
  lemma ActionOfCases(key: string)
    ensures ActionOf(key) == TogglePlay <==> key in {" ", "q", "Q"}
    ensures ActionOf(key) == SpeedUp <==> key == "ArrowUp"
    ensures ActionOf(key) == SpeedDown <==> key == "ArrowDown"
    ensures ActionOf(key) == StartManual <==> key in ManualKeys
  {
  }

  /** What the keydown switch does for each case. */
  function KeyActed(s: State, a: KeyAction): (r: State)
    ensures r.pressed == s.pressed
  {
    match a
    case TogglePlay => Toggled(s)
    case SpeedUp => SpeedAdjusted(s, 1)
    case SpeedDown => SpeedAdjusted(s, -1)
    case StartManual => s.(manualTimer := true)
    case NoAction => s
  }

  /** The keydown listener. */
  function KeyDowned(s: State, key: string): State {
    if Trim(s.content) == [] then s
    else KeyActed(s.(pressed := s.pressed + {key}), ActionOf(key))
  }

  /** The keyup listener. */
  function KeyUpped(s: State, key: string): State {
    var s1 := s.(pressed := s.pressed - {key});
    if key in ManualKeys && !ManualKeyHeld(s1.pressed) then s1.(manualTimer := false) else s1
  }

  /** What the page can deliver to the script. */
  datatype Event =
    | FileLoaded(text: string)
    | PlayPauseClick
    | SpeedUpClick
    | SpeedDownClick
    | KeyDown(key: string)
    | KeyUp(key: string)
    | PlayTick
    | ManualTick

  /** The listeners wired up in script.js; a disabled button delivers no click, and a timer that is
      not running delivers no tick. */
  function Step(s: State, e: Event, g: Geometry): State {
    match e
    case FileLoaded(text) => Loaded(s, text)
    case PlayPauseClick => if s.playEnabled then Toggled(s) else s
    case SpeedUpClick => SpeedAdjusted(s, 1)
    case SpeedDownClick => SpeedAdjusted(s, -1)
    case KeyDown(key) => KeyDowned(s, key)
    case KeyUp(key) => KeyUpped(s, key)
    case PlayTick => PlayTimerFired(s, g)
    case ManualTick => if s.manualTimer then ManualTicked(s, g) else s
  }

  /** The playback interval fires: it ticks if it is running. */
  function PlayTimerFired(s: State, g: Geometry): State {
    if s.playTimer then PlayTicked(s, g) else s
  }

  function Run(s: State, events: seq<(Event, Geometry)>): State
    decreases |events|
  {
    if events == [] then s else Run(Step(s, events[0].0, events[0].1), events[1..])
  }

  // ---------------------------------------------------------------------------
  // The invariant

  lemma InitInv()
    ensures Inv(Init()) && !Init().playEnabled
  {
  }

  lemma HeldAfterAdd(pressed: set<string>, key: string)
    ensures ManualKeyHeld(pressed + {key}) == (ManualKeyHeld(pressed) || key in ManualKeys)
  {
  }

  /** The switch finds its key already recorded; it restores the invariant from there. */
  lemma KeyActedRestoresInv(s: State, a: KeyAction)
    requires MinSpeedTenths <= s.speed <= MaxSpeedTenths && s.playTimer == s.isPlaying
    requires a == StartManual ==> ManualKeyHeld(s.pressed)
    requires a != StartManual ==> s.manualTimer == ManualKeyHeld(s.pressed)
    ensures Inv(KeyActed(s, a))
  {
    match a {
      case TogglePlay => case SpeedUp => case SpeedDown => case StartManual => case NoAction =>
    }
  }

  lemma KeyDownKeepsInv(s: State, key: string)
    requires Inv(s)
    ensures Inv(KeyDowned(s, key))
  {
    if Trim(s.content) != [] {
      var s1 := s.(pressed := s.pressed + {key});
      HeldAfterAdd(s.pressed, key);
      ActionOfCases(key);
      KeyActedRestoresInv(s1, ActionOf(key));
    }
  }

  lemma KeyUpKeepsInv(s: State, key: string)
    requires Inv(s)
    ensures Inv(KeyUpped(s, key))
  {
  }

  lemma StepKeepsInv(s: State, e: Event, g: Geometry)
    requires Inv(s)
    ensures Inv(Step(s, e, g))
  {
    match e
    case KeyDown(key) =>
      KeyDownKeepsInv(s, key);
    case KeyUp(key) =>
      KeyUpKeepsInv(s, key);
    case _ =>
  }

  /** Whatever the user does, speed stays within [0.1, 5.0], at most one playback timer runs and
      only while playing, and manual scrolling runs exactly while y, Y, j or J is held. */
  lemma {:induction false} RunKeepsInv(s: State, events: seq<(Event, Geometry)>)
    requires Inv(s)
    ensures Inv(Run(s, events))
    decreases |events|
  {
    if events != [] {
      StepKeepsInv(s, events[0].0, events[0].1);
      RunKeepsInv(Step(s, events[0].0, events[0].1), events[1..]);
    }
  }

  // ---------------------------------------------------------------------------
  // Properties of single handlers

  /** Loading places the content at the top limit and enables play: nothing can scroll it up. */
  lemma LoadedAtTop(s: State, text: string, amount: real, g: Geometry)
    requires amount > 0.0
    ensures Loaded(s, text).offset == 0.0 && Loaded(s, text).playEnabled
    ensures ScrollResult(Loaded(s, text), amount, g) == None
  {
  }

  /** Keydown records the key, unless there is no content, when it does nothing at all. */
  lemma KeyDownTracking(s: State, key: string)
    ensures Trim(s.content) == [] ==> KeyDowned(s, key) == s
    ensures Trim(s.content) != [] ==> KeyDowned(s, key).pressed == s.pressed + {key}
  {
    if Trim(s.content) != [] {
      var s1 := s.(pressed := s.pressed + {key});
      assert KeyDowned(s, key) == KeyActed(s1, ActionOf(key));
    }
  }

  /** Keyup always forgets the key. */
  lemma KeyUpTracking(s: State, key: string)
    ensures KeyUpped(s, key).pressed == s.pressed - {key}
  {
  }

  /** With content loaded, keydown records the key as held and then: space, q and Q toggle play;
      ArrowUp and ArrowDown step the speed by one tenth within [0.1, 5.0] and restart the running
      timers; y, Y, j and J start manual scrolling; any other key changes nothing else. */
  lemma KeyDownDispatch(s: State, key: string)
    requires Inv(s) && Trim(s.content) != []
    ensures key in {" ", "q", "Q"} ==> KeyDowned(s, key).isPlaying == !s.isPlaying
    ensures key == "ArrowUp" ==> KeyDowned(s, key).speed == AdjustedSpeed(s.speed, 1)
    ensures key == "ArrowDown" ==> KeyDowned(s, key).speed == AdjustedSpeed(s.speed, -1)
    ensures key !in {" ", "q", "Q", "ArrowUp", "ArrowDown"} ==>
      KeyDowned(s, key).isPlaying == s.isPlaying && KeyDowned(s, key).speed == s.speed
    ensures key in ManualKeys ==> KeyDowned(s, key).manualTimer
    ensures var held := s.(pressed := s.pressed + {key});
      && (key in {" ", "q", "Q"} ==> KeyDowned(s, key) == Toggled(held))
      && (key == "ArrowUp" ==> KeyDowned(s, key) == SpeedAdjusted(held, 1))
      && (key == "ArrowDown" ==> KeyDowned(s, key) == SpeedAdjusted(held, -1))
      && (key in ManualKeys ==> KeyDowned(s, key) == held.(manualTimer := true))
      && (key !in {" ", "q", "Q", "ArrowUp", "ArrowDown"} && key !in ManualKeys ==> KeyDowned(s, key) == held)
  {
    ActionOfCases(key);
    var s1 := s.(pressed := s.pressed + {key});
    assert KeyDowned(s, key) == KeyActed(s1, ActionOf(key));
  }

  /** Releasing a key leaves manual scrolling running exactly when one of y/Y/j/J is still held. */
  lemma ReleaseStopsManual(s: State, key: string)
    requires Inv(s)
    ensures KeyUpped(s, key).manualTimer <==> ManualKeyHeld(s.pressed - {key})
    ensures s.manualTimer && !KeyUpped(s, key).manualTimer ==> key in ManualKeys
  {
  }

  /** While both directions are held, down wins. */
  lemma ManualDownWins(s: State, g: Geometry)
    requires "y" in s.pressed || "Y" in s.pressed
    ensures ManualTicked(s, g) == Scrolled(s, -Speed(s), g)
  {
  }

  // ---------------------------------------------------------------------------
  // Playback

  /** The playback interval firing n times with the geometry unchanged. */
  function PlayTicks(s: State, g: Geometry, n: nat): State
    decreases n
  {
    if n == 0 then s else PlayTicks(PlayTimerFired(s, g), g, n - 1)
  }

  lemma {:induction false} StoppedStaysStopped(s: State, g: Geometry, n: nat)
    requires Inv(s) && !s.isPlaying
    ensures PlayTicks(s, g, n) == s
    decreases n
  {
    if n > 0 {
      StoppedStaysStopped(s, g, n - 1);
    }
  }

  lemma PlayTickedOutcome(s: State, g: Geometry)
    requires Inv(s) && s.isPlaying
    ensures PlayTicked(s, g).isPlaying
        ==> Attempt(s.offset, -Speed(s), MaxScroll(g), 0.0) == Some(PlayTicked(s, g).offset)
    ensures PlayTicked(s, g).speed == s.speed
    ensures Inv(PlayTicked(s, g))
  {
  }

  /** One tick of running playback: either the attempt of `-speed` is accepted and playback goes
      on from its offset, or it is rejected and playback stops. */
  lemma PlayTickOutcome(s: State, g: Geometry)
    requires Inv(s) && s.isPlaying
    ensures PlayTimerFired(s, g).isPlaying
        ==> Attempt(s.offset, -Speed(s), MaxScroll(g), 0.0) == Some(PlayTimerFired(s, g).offset)
    ensures PlayTimerFired(s, g).speed == s.speed
    ensures Inv(PlayTimerFired(s, g))
  {
    PlayTickedOutcome(s, g);
  }

  /** While playback keeps running, n ticks are n accepted attempts of `-speed`. */
  lemma {:induction false} PlayTicksRepeat(s: State, g: Geometry, n: nat)
    requires Inv(s) && s.isPlaying
    ensures PlayTicks(s, g, n).isPlaying ==>
      Repeat(s.offset, -Speed(s), MaxScroll(g), 0.0, n) == Some(PlayTicks(s, g, n).offset)
    ensures PlayTicks(s, g, n).speed == s.speed
    ensures Inv(PlayTicks(s, g, n))
    decreases n
  {
    if n > 0 {
      var s1 := PlayTimerFired(s, g);
      PlayTickOutcome(s, g);
      if s1.isPlaying {
        PlayTicksRepeat(s1, g, n - 1);
      } else {
        StoppedStaysStopped(s1, g, n - 1);
      }
    }
  }

  /** The attempts playback makes, n ticks of the current speed, run out once they would cover
      the distance to the bottom limit. */
  lemma PlaybackRunsOut(s: State, g: Geometry, n: nat)
    requires Inv(s) && n > 0
    requires (n as real) * Speed(s) >= s.offset + MaxScroll(g)
    ensures Repeat(s.offset, -Speed(s), MaxScroll(g), 0.0, n) == None
  {
    PlaybackStopsDown(s.offset, Speed(s), MaxScroll(g), 0.0, n);
  }

  /** Playback stops by itself once n ticks would cover the distance to the bottom limit. */
  lemma AutoplayStops(s: State, g: Geometry, n: nat)
    requires Inv(s) && s.isPlaying && n > 0
    requires (n as real) * Speed(s) >= s.offset + MaxScroll(g)
    ensures !PlayTicks(s, g, n).isPlaying && !PlayTicks(s, g, n).playTimer
  {
    PlayTicksRepeat(s, g, n);
    PlaybackRunsOut(s, g, n);
  }

  // ---------------------------------------------------------------------------
  // The handlers as script.js writes them, against mutable state

  class Prompter {
    var scrollSpeed: int
    var isPlaying: bool
    var offset: real
    var scrollTimer: bool
    var manualScrollTimer: bool
    var keysPressed: set<string>
    var content: string
    var playEnabled: bool

    function Snap(): State
      reads this
    {
      State(scrollSpeed, isPlaying, offset, scrollTimer, manualScrollTimer, keysPressed, content,
            playEnabled)
    }

    constructor ()
      ensures Snap() == Init()
    {
      scrollSpeed := DefaultSpeedTenths;
      isPlaying := false;
      offset := 0.0;
      scrollTimer := false;
      manualScrollTimer := false;
      keysPressed := {};
      content := "";
      playEnabled := false;
    }

    method DisplayContent(text: string)
      modifies this
      ensures Snap() == Loaded(old(Snap()), text)
    {
      ghost var before := Snap();
      content := FormatParagraphs(text);
      offset := 0.0;
      playEnabled := true;
      assert Snap() == before.(content := content, offset := 0.0, playEnabled := true);
    }

    method TogglePlayPause()
      modifies this
      ensures Snap() == Toggled(old(Snap()))
    {
      isPlaying := !isPlaying;
      if isPlaying {
        StartScrolling();
      } else {
        StopScrolling();
      }
    }

    method StartScrolling()
      modifies this
      ensures Snap() == old(Snap()).(playTimer := true)
    {
      StopScrolling();
      scrollTimer := true;
    }

    method StopScrolling()
      modifies this
      ensures Snap() == old(Snap()).(playTimer := false)
    {
      scrollTimer := false;
    }

    method AdjustSpeed(delta: int)
      modifies this
      ensures Snap() == SpeedAdjusted(old(Snap()), delta)
    {
      scrollSpeed := Clamp(scrollSpeed + delta, MinSpeedTenths, MaxSpeedTenths);
      if isPlaying {
        StartScrolling();
      }
      if manualScrollTimer {
        manualScrollTimer := false;
        StartManualScroll();
      }
    }

    method ScrollText(amount: real, g: Geometry) returns (ok: bool)
      modifies this
      ensures ok == ScrollResult(old(Snap()), amount, g).Some?
      ensures Snap() == Scrolled(old(Snap()), amount, g)
    {
      if amount < 0.0 && Abs(offset - Abs(amount)) >= g.total - g.container {
        return false;
      } else if amount > 0.0 && offset + amount > 0.0 {
        return false;
      }
      offset := offset + amount;
      return true;
    }

    method PlayTick(g: Geometry)
      requires scrollTimer
      modifies this
      ensures Snap() == PlayTicked(old(Snap()), g)
    {
      var ok := ScrollText(-(scrollSpeed as real / 10.0), g);
      if !ok {
        StopScrolling();
        isPlaying := false;
      }
    }

    method StartManualScroll()
      modifies this
      ensures Snap() == old(Snap()).(manualTimer := true)
    {
      manualScrollTimer := true;
    }

    method StopManualScroll()
      modifies this
      ensures Snap() == old(Snap()).(manualTimer := false)
    {
      manualScrollTimer := false;
    }

    method ManualTick(g: Geometry)
      requires manualScrollTimer
      modifies this
      ensures Snap() == ManualTicked(old(Snap()), g)
    {
      var speed := scrollSpeed as real / 10.0;
      if "y" in keysPressed || "Y" in keysPressed {
        var _ := ScrollText(-speed, g);
      } else if "j" in keysPressed || "J" in keysPressed {
        var _ := ScrollText(speed, g);
      }
    }

    method KeyDown(key: string)
      modifies this
      ensures Snap() == KeyDowned(old(Snap()), key)
    {
      if Trim(content) == [] {
        return;
      }
      keysPressed := keysPressed + {key};
      ghost var held := Snap();
      var action := ActionOf(key);
      match action {
        case TogglePlay => TogglePlayPause();
        case SpeedUp => AdjustSpeed(1);
        case SpeedDown => AdjustSpeed(-1);
        case StartManual =>
          if !manualScrollTimer {
            StartManualScroll();
          }
        case NoAction =>
      }
      assert Snap() == KeyActed(held, action);
    }

    method KeyUp(key: string)
      modifies this
      ensures Snap() == KeyUpped(old(Snap()), key)
    {
      keysPressed := keysPressed - {key};
      if (key == "y" || key == "Y" || key == "j" || key == "J")
        && "y" !in keysPressed && "Y" !in keysPressed && "j" !in keysPressed && "J" !in keysPressed
      {
        StopManualScroll();
      }
    }

    /** The event listeners and the two intervals, dispatched. */
    method Handle(e: Event, g: Geometry)
      modifies this
      ensures Snap() == Step(old(Snap()), e, g)
    {
      match e {
        case FileLoaded(text) => DisplayContent(text);
        case PlayPauseClick =>
          if playEnabled {
            TogglePlayPause();
          }
        case SpeedUpClick => AdjustSpeed(1);
        case SpeedDownClick => AdjustSpeed(-1);
        case KeyDown(key) => KeyDown(key);
        case KeyUp(key) => KeyUp(key);
        case PlayTick =>
          if scrollTimer {
            PlayTick(g);
          }
        case ManualTick =>
          if manualScrollTimer {
            ManualTick(g);
          }
      }
    }
  }
}
