/**
 * The application's gesture dispatch: each recognised gesture becomes at
 * most one action on the cursor controller, the keyboard mode or the
 * operating system, subject to a click cooldown shared by the three click
 * gestures and a separate scroll cooldown. The keyboard mode's feedback
 * events set the status message shown in the preview.
 *
 * `Dispatch` is the decision as a function of the gesture, the time and the
 * two timestamps; `HandControlApp.HandleGesture` carries it out on the
 * collaborating objects.
 */
module App {
  import opened Wrappers
  import opened Numeric
  import Keys = Keyboard
  import Mouse = Cursor
  import Gestures
  import Smoothing

  /**
   * The gesture types the application dispatches on: the eight the
   * recogniser produces and five more that it never does.
   */
  datatype AppGesture =
    | Idle | Move | LeftClick | RightClick | DoubleClick | Scroll | Drag | Keyboard
    | Grab | WindowMove | WindowMinimize | WindowMaximize | TwoHandResize

  /** The recogniser's gesture type under the application's name. */
  function FromRecognizerType(t: Gestures.GestureType): (r: AppGesture)
    ensures r != Grab && r != WindowMove && r != WindowMinimize && r != WindowMaximize && r != TwoHandResize
    ensures Gestures.IsClick(t) <==> (r == LeftClick || r == RightClick || r == DoubleClick)
  {
    match t
    case Idle => Idle
    case Move => Move
    case LeftClick => LeftClick
    case RightClick => RightClick
    case DoubleClick => DoubleClick
    case Scroll => Scroll
    case Drag => Drag
    case Keyboard => Keyboard
  }

  /**
   * A gesture with the payload entries the dispatch reads: `cursor_pos`,
   * `scroll_delta` and, for the keyboard mode, the finger pattern.
   */
  datatype GestureEvent = GestureEvent(
    gestureType: AppGesture,
    cursorPos: Option<(real, real)>,
    scrollDelta: Option<real>,
    fingerData: Keys.FingerData)

  /**
   * A recogniser output as the dispatch sees it. The recogniser's payloads
   * carry no `scroll_delta`, `finger_count` or `thumb_extended` entry.
   */
  function FromRecognizer(g: Gestures.GestureState): (e: GestureEvent)
    ensures e.gestureType == FromRecognizerType(g.gestureType)
    ensures e.cursorPos.Some? <==> g.data.CursorPos?
    ensures e.scrollDelta.None? && e.fingerData == Keys.NoFingerData
  {
    var pos := if g.data.CursorPos? then Some((g.data.x, g.data.y)) else None;
    GestureEvent(FromRecognizerType(g.gestureType), pos, None, Keys.NoFingerData)
  }

  // ---------------------------------------------------------------------
  // Cooldowns
  // ---------------------------------------------------------------------

  /** `_can_click` / `_can_scroll`: strictly more than the cooldown has passed. */
  function Cooled(now: real, last: real, cooldown: real): (b: bool)
    ensures b && 0.0 <= cooldown ==> last < now
  {
    now - last > cooldown
  }

  /**
   * At exactly the cooldown the application refuses an action that the
   * recogniser's own cooldown would already let through.
   */
  lemma CooldownBoundaryDiffers(cfg: Gestures.RecognizerConfig, s: Gestures.RecognizerState, now: real)
    requires now == s.lastClickTime + Gestures.ClickCooldown(cfg)
    ensures !Cooled(now, s.lastClickTime, Gestures.ClickCooldown(cfg))
    ensures !Gestures.CoolingDown(cfg, s, Gestures.LeftClick, now)
  {
  }

  /** Once an action fires, the same cooldown holds back every later one until it has passed. */
  lemma CooledAfterFiring(now: real, later: real, cooldown: real)
    ensures Cooled(later, now, cooldown) <==> later > now + cooldown
  {
  }

  // ---------------------------------------------------------------------
  // The dispatch decision
  // ---------------------------------------------------------------------

  datatype ClickKind = LeftButton | RightButton | BothClicks

  /** What one dispatch does. */
  datatype Action =
    | NoAction
    | MoveCursor(x: real, y: real)
    | ClickAction(kind: ClickKind)
    | ScrollAction(direction: int)
    | ToggleDrag
    | KeyboardUpdate(allExtended: bool, data: Keys.FingerData)
    | SystemHotkey(keys: seq<string>)

  datatype Timers = Timers(lastClickTime: real, lastScrollTime: real)

  datatype Dispatched = Dispatched(action: Action, timers: Timers)

  /** The click a click gesture asks for. */
  function ClickOf(t: AppGesture): ClickKind
    requires t == LeftClick || t == RightClick || t == DoubleClick
  {
    if t == LeftClick then LeftButton else if t == RightClick then RightButton else BothClicks
  }

  /** `1 if delta > 0 else -1`. */
  function Direction(delta: real): (d: int)
    ensures d == 1 || d == -1
    ensures d == 1 <==> delta > 0.0
  {
    if delta > 0.0 then 1 else -1
  }

  /**
   * `_handle_gesture`'s decision. A click fires only when the shared click
   * cooldown has passed and then restarts it; a scroll fires only when the
   * scroll cooldown has passed and the delta (0 when missing) exceeds 2 in
   * size; drag toggles every time; the keyboard mode sees every KEYBOARD
   * and IDLE gesture; minimise is a macOS key combination.
   */
  function Dispatch(g: GestureEvent, now: real, t: Timers, clickCooldown: real, scrollCooldown: real,
                    isMacos: bool): (r: Dispatched)
    ensures r.timers.lastClickTime == (if r.action.ClickAction? then now else t.lastClickTime)
    ensures r.timers.lastScrollTime == (if r.action.ScrollAction? then now else t.lastScrollTime)
    ensures r.action.ClickAction? ==> Cooled(now, t.lastClickTime, clickCooldown)
    ensures r.action.ScrollAction? ==> Cooled(now, t.lastScrollTime, scrollCooldown)
  {
    match g.gestureType
    case Move =>
      if g.cursorPos.Some? then Dispatched(MoveCursor(g.cursorPos.value.0, g.cursorPos.value.1), t)
      else Dispatched(NoAction, t)
    case LeftClick | RightClick | DoubleClick =>
      if Cooled(now, t.lastClickTime, clickCooldown) then
        Dispatched(ClickAction(ClickOf(g.gestureType)), t.(lastClickTime := now))
      else Dispatched(NoAction, t)
    case Scroll =>
      var delta := g.scrollDelta.GetOr(0.0);
      if Cooled(now, t.lastScrollTime, scrollCooldown) && Abs(delta) > 2.0 then
        Dispatched(ScrollAction(Direction(delta)), t.(lastScrollTime := now))
      else Dispatched(NoAction, t)
    case Drag => Dispatched(ToggleDrag, t)
    case Keyboard => Dispatched(KeyboardUpdate(true, g.fingerData), t)
    case Idle => Dispatched(KeyboardUpdate(false, Keys.NoFingerData), t)
    case WindowMinimize =>
      if isMacos then Dispatched(SystemHotkey(["cmd", "m"]), t) else Dispatched(NoAction, t)
    case Grab | WindowMove | WindowMaximize | TwoHandResize => Dispatched(NoAction, t)
  }

  /** A click gesture fires exactly when the click cooldown has passed, and then restarts it. */
  lemma ClickFiresIff(g: GestureEvent, now: real, t: Timers, clickCooldown: real, scrollCooldown: real, isMacos: bool)
    requires g.gestureType == LeftClick || g.gestureType == RightClick || g.gestureType == DoubleClick
    ensures var r := Dispatch(g, now, t, clickCooldown, scrollCooldown, isMacos);
      if Cooled(now, t.lastClickTime, clickCooldown) then
        r == Dispatched(ClickAction(ClickOf(g.gestureType)), Timers(now, t.lastScrollTime))
      else r == Dispatched(NoAction, t)
  {
  }

  /**
   * The three click gestures share one cooldown: after any of them fires,
   * none of them fires again until the cooldown has passed.
   */
  lemma ClicksShareCooldown(g1: GestureEvent, g2: GestureEvent, now1: real, now2: real, t: Timers,
                            clickCooldown: real, scrollCooldown: real, isMacos: bool)
    requires Dispatch(g1, now1, t, clickCooldown, scrollCooldown, isMacos).action.ClickAction?
    requires g2.gestureType == LeftClick || g2.gestureType == RightClick || g2.gestureType == DoubleClick
    requires now2 <= now1 + clickCooldown
    ensures var t1 := Dispatch(g1, now1, t, clickCooldown, scrollCooldown, isMacos).timers;
      Dispatch(g2, now2, t1, clickCooldown, scrollCooldown, isMacos) == Dispatched(NoAction, t1)
  {
    var t1 := Dispatch(g1, now1, t, clickCooldown, scrollCooldown, isMacos).timers;
    assert t1.lastClickTime == now1;
    ClickFiresIff(g2, now2, t1, clickCooldown, scrollCooldown, isMacos);
  }

  /**
   * A scroll fires exactly when the scroll cooldown has passed and the delta
   * is larger than 2 in size; it scrolls up for a positive delta.
   */
  lemma ScrollFiresIff(g: GestureEvent, now: real, t: Timers, clickCooldown: real, scrollCooldown: real, isMacos: bool)
    requires g.gestureType == Scroll
    ensures var r := Dispatch(g, now, t, clickCooldown, scrollCooldown, isMacos);
      var delta := g.scrollDelta.GetOr(0.0);
      (r.action.ScrollAction? <==> Cooled(now, t.lastScrollTime, scrollCooldown) && (delta > 2.0 || delta < -2.0))
      && (r.action.ScrollAction? ==> (r.action.direction == 1 <==> delta > 0.0))
      && (!r.action.ScrollAction? ==> r == Dispatched(NoAction, t))
  {
  }

  /** A gesture without a delta never scrolls; in particular no recogniser output does. */
  lemma MissingDeltaNeverScrolls(g: GestureEvent, now: real, t: Timers, clickCooldown: real, scrollCooldown: real,
                                 isMacos: bool)
    requires g.scrollDelta.None?
    ensures !Dispatch(g, now, t, clickCooldown, scrollCooldown, isMacos).action.ScrollAction?
  {
  }

  lemma RecognizedScrollNeverFires(g: Gestures.GestureState, now: real, t: Timers, clickCooldown: real,
                                   scrollCooldown: real, isMacos: bool)
    ensures Dispatch(FromRecognizer(g), now, t, clickCooldown, scrollCooldown, isMacos).timers.lastScrollTime
              == t.lastScrollTime
  {
    MissingDeltaNeverScrolls(FromRecognizer(g), now, t, clickCooldown, scrollCooldown, isMacos);
  }

  /** Drag toggles on every dispatch and touches no timer. */
  lemma DragAlwaysToggles(g: GestureEvent, now: real, t: Timers, clickCooldown: real, scrollCooldown: real,
                          isMacos: bool)
    requires g.gestureType == Drag
    ensures Dispatch(g, now, t, clickCooldown, scrollCooldown, isMacos) == Dispatched(ToggleDrag, t)
  {
  }

  /**
   * MOVE moves the cursor to the gesture's position exactly when it carries
   * one, does nothing otherwise, and never touches a timer; no other gesture
   * moves the cursor.
   */
  lemma MoveDispatch(g: GestureEvent, now: real, t: Timers, clickCooldown: real, scrollCooldown: real,
                     isMacos: bool)
    ensures var r := Dispatch(g, now, t, clickCooldown, scrollCooldown, isMacos);
      (r.action.MoveCursor? <==> g.gestureType == Move && g.cursorPos.Some?)
      && (r.action.MoveCursor? ==> r.action == MoveCursor(g.cursorPos.value.0, g.cursorPos.value.1))
      && (g.gestureType == Move ==> r.timers == t && (g.cursorPos.None? ==> r.action == NoAction))
  {
  }

  /**
   * KEYBOARD forwards the gesture with all fingers extended, IDLE forwards an
   * empty pattern without; no other gesture reaches the keyboard mode.
   */
  lemma KeyboardForwarding(g: GestureEvent, now: real, t: Timers, clickCooldown: real, scrollCooldown: real,
                           isMacos: bool)
    ensures var a := Dispatch(g, now, t, clickCooldown, scrollCooldown, isMacos).action;
      (a.KeyboardUpdate? <==> g.gestureType == Keyboard || g.gestureType == Idle)
      && (a.KeyboardUpdate? ==> a.allExtended == (g.gestureType == Keyboard))
      && (g.gestureType == Keyboard ==> a == KeyboardUpdate(true, g.fingerData))
      && (g.gestureType == Idle ==> a == KeyboardUpdate(false, Keys.NoFingerData))
  {
  }

  /**
   * Neither keyboard branch can receive a shortcut to execute: with every
   * finger extended `update` returns none, and the empty pattern IDLE sends
   * matches no shortcut.
   */
  lemma KeyboardDispatchNeverExecutes(g: GestureEvent, now: real, t: Timers, clickCooldown: real,
                                      scrollCooldown: real, isMacos: bool, holdTime: real, s: Keys.KeyboardState)
    ensures var a := Dispatch(g, now, t, clickCooldown, scrollCooldown, isMacos).action;
      a.KeyboardUpdate? ==> Keys.KeyboardStep(holdTime, s, a.allExtended, a.data, now).shortcut.None?
  {
    Keys.NoFingerDataNoShortcut();
  }

  /** Minimise sends cmd+m on macOS and nothing elsewhere; the window gestures do nothing at all. */
  lemma WindowGestures(g: GestureEvent, now: real, t: Timers, clickCooldown: real, scrollCooldown: real,
                       isMacos: bool)
    ensures var r := Dispatch(g, now, t, clickCooldown, scrollCooldown, isMacos);
      (r.action.SystemHotkey? <==> g.gestureType == WindowMinimize && isMacos)
      && (r.action.SystemHotkey? ==> r.action.keys == ["cmd", "m"])
      && (g.gestureType in {Grab, WindowMove, WindowMaximize, TwoHandResize} ==> r == Dispatched(NoAction, t))
  {
  }

  /**
   * The recogniser reports `cursor_pos` in normalised coordinates, while
   * `move_cursor` divides by the default 640 x 480 frame: with a dead zone
   * of at least 1/480 every such position lands in the top-left corner
   * before smoothing.
   */
  lemma NormalisedPositionsLandInCorner(s: Mouse.CursorSettings, x: real, y: real)
    requires 0.0 <= x <= 1.0 && 0.0 <= y <= 1.0
    requires 1.0 / 480.0 <= s.deadZoneX < 0.5 && 1.0 / 480.0 <= s.deadZoneY < 0.5
    ensures Mouse.MapToScreen(s, x, y, 640, 480) == Success((0.0, 0.0))
  {
    Mouse.AxisToScreenLowMargin(x / 640.0, s.deadZoneX, s.screenWidth);
    Mouse.AxisToScreenLowMargin(y / 480.0, s.deadZoneY, s.screenHeight);
  }

  // ---------------------------------------------------------------------
  // The status message
  // ---------------------------------------------------------------------

  /**
   * The status line. `Countdown(r)` stands for "KEYBOARD <r>s" with `r`
   * printed to one decimal.
   */
  datatype StatusMessage = Text(text: string) | Countdown(remaining: real)

  function UpperChar(c: char): char {
    if 'a' <= c <= 'z' then (c as int - 'a' as int + 'A' as int) as char else c
  }

  /** `str.upper` on ASCII letters. */
  function Upper(s: string): (r: string)
    ensures |r| == |s|
    ensures forall i :: 0 <= i < |s| ==> r[i] == UpperChar(s[i])
  {
    if s == [] then [] else [UpperChar(s[0])] + Upper(s[1..])
  }

  /** `_keyboard_feedback`: the message each keyboard-mode event sets. */
  function FeedbackMessage(e: Keys.Feedback): (r: StatusMessage)
    ensures r.Countdown? <==> e.KeyboardActivating?
    ensures e.KeyboardActivating? ==> r == Countdown(e.remaining)
    ensures e.KeyboardActive? ==> r == Text("KEYBOARD MODE")
    ensures r == Text("") <==> e.KeyboardInactive?
    ensures e.ShortcutExecuted? ==>
      r.Text? && |r.text| == 10 + |e.shortcut| && r.text[..10] == "EXECUTED: " && r.text[10..] == Upper(e.shortcut)
  {
    match e
    case KeyboardActivating(remaining) => Countdown(remaining)
    case KeyboardActive => Text("KEYBOARD MODE")
    case KeyboardInactive => Text("")
    case ShortcutExecuted(shortcut) => Text("EXECUTED: " + Upper(shortcut))
  }

  /** The message after the callback has received `events` in order. */
  function ApplyFeedback(m: StatusMessage, events: seq<Keys.Feedback>): (r: StatusMessage)
    ensures events == [] ==> r == m
    ensures events != [] ==> r == FeedbackMessage(events[|events| - 1])
    decreases |events|
  {
    if events == [] then m else ApplyFeedback(FeedbackMessage(events[0]), events[1..])
  }

  lemma {:induction false} ApplyFeedbackAppend(m: StatusMessage, events: seq<Keys.Feedback>, e: Keys.Feedback)
    ensures ApplyFeedback(m, events + [e]) == FeedbackMessage(e)
  {
    assert (events + [e])[|events + [e]| - 1] == e;
  }

  /** The messages a running countdown, activation and exit produce. */
  lemma FeedbackMessages()
    ensures FeedbackMessage(Keys.KeyboardActivating(1.5)) == Countdown(1.5)
    ensures FeedbackMessage(Keys.KeyboardActive) == Text("KEYBOARD MODE")
    ensures FeedbackMessage(Keys.KeyboardInactive) == Text("")
  {
  }

  /** An executed shortcut is announced by its name in capitals. */
  lemma ExecutedMessage()
    ensures FeedbackMessage(Keys.ShortcutExecuted(Keys.KeyboardShortcut.Copy.Value())) == Text("EXECUTED: COPY")
  {
    var u := Upper("copy");
    assert u[0] == 'C' && u[1] == 'O' && u[2] == 'P' && u[3] == 'Y';
    assert u == "COPY";
  }

  // ---------------------------------------------------------------------
  // The application object
  // ---------------------------------------------------------------------

  /** The frame size `move_cursor` assumes when the caller gives none. */
  const DefaultWebcamWidth := 640
  const DefaultWebcamHeight := 480

  class HandControlApp {
    const cursor: Mouse.CursorController
    const keyboardMode: Keys.KeyboardMode
    const clickCooldown: real
    const scrollCooldown: real
    const isMacos: bool
    var lastClickTime: real
    var lastScrollTime: real
    var feedbackMessage: StatusMessage
    /** Key combinations the application sends to the operating system itself. */
    ghost var hotkeyLog: seq<seq<string>>

    ghost predicate Valid()
      reads this, cursor, keyboardMode
    {
      cursor.Valid() && keyboardMode.Valid()
      && keyboardMode !in cursor.smoother.Repr() && this !in cursor.smoother.Repr()
    }

    function LastTimes(): Timers
      reads this
    {
      Timers(lastClickTime, lastScrollTime)
    }

    /** Both cooldowns are configured in milliseconds. */
    constructor (cursor: Mouse.CursorController, keyboardMode: Keys.KeyboardMode,
                 cooldownClickMs: int, cooldownScrollMs: int, isMacos: bool)
      requires cursor.Valid() && keyboardMode.Valid() && keyboardMode !in cursor.smoother.Repr()
      ensures Valid()
      ensures this.cursor == cursor && this.keyboardMode == keyboardMode && this.isMacos == isMacos
      ensures clickCooldown == cooldownClickMs as real / 1000.0
      ensures scrollCooldown == cooldownScrollMs as real / 1000.0
      ensures LastTimes() == Timers(0.0, 0.0) && feedbackMessage == Text("") && hotkeyLog == []
    {
      this.cursor := cursor;
      this.keyboardMode := keyboardMode;
      clickCooldown := cooldownClickMs as real / 1000.0;
      scrollCooldown := cooldownScrollMs as real / 1000.0;
      this.isMacos := isMacos;
      lastClickTime := 0.0;
      lastScrollTime := 0.0;
      feedbackMessage := Text("");
      hotkeyLog := [];
    }

    function CanClick(now: real): bool
      reads this
    {
      Cooled(now, lastClickTime, clickCooldown)
    }

    function CanScroll(now: real): bool
      reads this
    {
      Cooled(now, lastScrollTime, scrollCooldown)
    }

    /** The feedback callback, for one event. */
    method KeyboardFeedback(e: Keys.Feedback)
      modifies this
      ensures feedbackMessage == FeedbackMessage(e)
      ensures LastTimes() == old(LastTimes()) && hotkeyLog == old(hotkeyLog)
    {
      match e
      case KeyboardActivating(remaining) => feedbackMessage := Countdown(remaining);
      case KeyboardActive => feedbackMessage := Text("KEYBOARD MODE");
      case KeyboardInactive => feedbackMessage := Text("");
      case ShortcutExecuted(shortcut) => feedbackMessage := Text("EXECUTED: " + Upper(shortcut));
    }

    /** Deliver the keyboard mode's events from position `from` on to the callback, in order. */
    method RelayFeedback(from: nat)
      requires from <= |keyboardMode.feedbackLog|
      modifies this
      ensures feedbackMessage == ApplyFeedback(old(feedbackMessage), keyboardMode.feedbackLog[from..])
      ensures LastTimes() == old(LastTimes()) && hotkeyLog == old(hotkeyLog)
    {
      var log := keyboardMode.feedbackLog;
      ghost var m0 := feedbackMessage;
      var i := from;
      while i < |log|
        invariant from <= i <= |log|
        invariant feedbackMessage == ApplyFeedback(m0, log[from..i])
        invariant LastTimes() == old(LastTimes()) && hotkeyLog == old(hotkeyLog)
      {
        KeyboardFeedback(log[i]);
        ApplyFeedbackAppend(m0, log[from..i], log[i]);
        assert log[from..i + 1] == log[from..i] + [log[i]];
        i := i + 1;
      }
      assert log[from..i] == log[from..];
    }

    /** LEFT, RIGHT and DOUBLE click. */
    method HandleClick(kind: ClickKind, now: real)
      requires Valid()
      modifies this, cursor
      ensures Valid() && feedbackMessage == old(feedbackMessage) && hotkeyLog == old(hotkeyLog)
      ensures lastScrollTime == old(lastScrollTime)
      ensures cursor.isDragging == old(cursor.isDragging) && cursor.lastPosition == old(cursor.lastPosition)
      ensures if old(CanClick(now)) then
          lastClickTime == now && cursor.mouseLog == old(cursor.mouseLog) + [ClickEvent(kind)]
        else
          lastClickTime == old(lastClickTime) && cursor.mouseLog == old(cursor.mouseLog)
    {
      if CanClick(now) {
        match kind {
          case LeftButton => cursor.LeftClick();
          case RightButton => cursor.RightClick();
          case BothClicks => cursor.DoubleClick();
        }
        lastClickTime := now;
      }
    }

    /** SCROLL: one wheel click in the delta's direction. */
    method HandleScroll(delta: real, now: real)
      requires Valid()
      modifies this, cursor
      ensures Valid() && feedbackMessage == old(feedbackMessage) && hotkeyLog == old(hotkeyLog)
      ensures lastClickTime == old(lastClickTime)
      ensures cursor.isDragging == old(cursor.isDragging) && cursor.lastPosition == old(cursor.lastPosition)
      ensures if old(CanScroll(now)) && Abs(delta) > 2.0 then
          lastScrollTime == now && cursor.mouseLog == old(cursor.mouseLog) + [Mouse.Scroll(Direction(delta))]
        else
          lastScrollTime == old(lastScrollTime) && cursor.mouseLog == old(cursor.mouseLog)
    {
      if CanScroll(now) {
        if Abs(delta) > 2.0 {
          var direction := if delta > 0.0 then 1 else -1;
          cursor.Scroll(direction, 1);
          lastScrollTime := now;
        }
      }
    }

    /**
     * KEYBOARD: a keyboard-mode step with every finger extended, executing
     * the shortcut it returns; the mode's feedback is relayed.
     */
    method HandleKeyboard(data: Keys.FingerData, now: real)
      requires Valid()
      modifies this, keyboardMode
      ensures Valid() && LastTimes() == old(LastTimes()) && hotkeyLog == old(hotkeyLog)
      ensures var o := Keys.KeyboardStep(keyboardMode.holdTime, old(keyboardMode.State()), true, data, now);
        keyboardMode.State() == o.state
        && keyboardMode.feedbackLog == old(keyboardMode.feedbackLog) + o.events
        && feedbackMessage == ApplyFeedback(old(feedbackMessage), o.events)
      ensures keyboardMode.keyLog == old(keyboardMode.keyLog)
    {
      var before := |keyboardMode.feedbackLog|;
      var shortcut := keyboardMode.Update(true, data, now);
      if shortcut.Some? {
        // `update` with every finger extended returns no shortcut, so the
        // source's `execute_shortcut` call here cannot be reached
        assert false;
      }
      RelayFeedback(before);
    }

    /** IDLE: a keyboard-mode step with an empty finger pattern; its result is not used. */
    method HandleIdle(now: real)
      requires Valid()
      modifies this, keyboardMode
      ensures Valid() && LastTimes() == old(LastTimes()) && hotkeyLog == old(hotkeyLog)
      ensures var o := Keys.KeyboardStep(keyboardMode.holdTime, old(keyboardMode.State()), false, Keys.NoFingerData, now);
        keyboardMode.State() == o.state
        && keyboardMode.feedbackLog == old(keyboardMode.feedbackLog) + o.events
        && feedbackMessage == ApplyFeedback(old(feedbackMessage), o.events)
      ensures keyboardMode.keyLog == old(keyboardMode.keyLog)
    {
      var before := |keyboardMode.feedbackLog|;
      var _ := keyboardMode.Update(false, Keys.NoFingerData, now);
      RelayFeedback(before);
    }

    /** What `Dispatch` decides for `g` at `now` in the current state. */
    function Decision(g: GestureEvent, now: real): Dispatched
      reads this
    {
      Dispatch(g, now, LastTimes(), clickCooldown, scrollCooldown, isMacos)
    }

    /** What `move_cursor` would do now for the finger at (x, y) on the default frame. */
    function MoveAt(x: real, y: real, now: real): Mouse.MoveOutcome
      requires cursor.Valid()
      reads cursor, cursor.smoother.Repr()
    {
      Mouse.MoveStep(cursor.Settings(), cursor.sqrt, cursor.smoother.Params(), cursor.smoother.Alpha(),
                     cursor.smoother.State(), cursor.lastPosition, x, y, DefaultWebcamWidth, DefaultWebcamHeight, now)
    }

    /** Everything the cursor controller has sent and keeps. */
    ghost function PointerView(): (seq<Mouse.MouseAction>, Option<(real, real)>, bool, Smoothing.PointState)
      requires cursor.Valid()
      reads cursor, cursor.smoother.Repr()
    {
      (cursor.mouseLog, cursor.lastPosition, cursor.isDragging, cursor.smoother.State())
    }

    /** Everything the keyboard side keeps: the mode's state and events, and the status message. */
    function KeyboardView(): (Keys.KeyboardState, seq<Keys.Feedback>, StatusMessage)
      reads this, keyboardMode
    {
      (keyboardMode.State(), keyboardMode.feedbackLog, feedbackMessage)
    }

    /**
     * `_handle_gesture`: carries out `Dispatch`'s decision on the cursor
     * controller, the keyboard mode or the system key log, and on nothing
     * else; no keyboard shortcut is ever sent from here. The exception
     * `move_cursor` raises (a zero-sized frame or a 0.5 dead zone, a zero
     * time step in the filter) is not caught and comes back as the Failure.
     */
    method HandleGesture(g: GestureEvent, now: real) returns (r: Result<()>)
      requires Valid()
      modifies this, cursor, cursor.smoother.Repr(), keyboardMode
      ensures Valid()
      ensures LastTimes() == old(Decision(g, now)).timers
      ensures keyboardMode.keyLog == old(keyboardMode.keyLog)
      ensures var a := old(Decision(g, now)).action;
        hotkeyLog == old(hotkeyLog) + (if a.SystemHotkey? then [a.keys] else [])
      ensures var a := old(Decision(g, now)).action;
        !a.KeyboardUpdate? ==> KeyboardView() == old(KeyboardView())
      ensures var a := old(Decision(g, now)).action;
        !(a.MoveCursor? || a.ClickAction? || a.ScrollAction? || a.ToggleDrag?) ==> PointerView() == old(PointerView())
      ensures var a := old(Decision(g, now)).action;
        if a.MoveCursor? then
          var o := old(MoveAt(a.x, a.y, now));
          cursor.smoother.State() == o.smoother && cursor.lastPosition == o.lastPosition
          && cursor.isDragging == old(cursor.isDragging)
          && cursor.mouseLog == old(cursor.mouseLog) + (if o.moved.Success? then [Mouse.MoveTo(o.moved.value)] else [])
          && (r.Failure? <==> o.moved.Failure?) && (r.Failure? ==> r.error == o.moved.error)
        else
          r == Success(())
      ensures var a := old(Decision(g, now)).action;
        a.ClickAction? || a.ScrollAction? || a.ToggleDrag? ==>
          cursor.lastPosition == old(cursor.lastPosition) && cursor.smoother.State() == old(cursor.smoother.State())
      ensures var a := old(Decision(g, now)).action;
        a.ClickAction? ==>
          cursor.mouseLog == old(cursor.mouseLog) + [ClickEvent(a.kind)] && cursor.isDragging == old(cursor.isDragging)
      ensures var a := old(Decision(g, now)).action;
        a.ScrollAction? ==>
          cursor.mouseLog == old(cursor.mouseLog) + [Mouse.Scroll(a.direction)]
          && cursor.isDragging == old(cursor.isDragging)
      ensures var a := old(Decision(g, now)).action;
        a.ToggleDrag? ==>
          cursor.isDragging == !old(cursor.isDragging)
          && cursor.mouseLog == old(cursor.mouseLog) + [if old(cursor.isDragging) then Mouse.MouseUp else Mouse.MouseDown]
      ensures var a := old(Decision(g, now)).action;
        a.KeyboardUpdate? ==>
          var o := Keys.KeyboardStep(keyboardMode.holdTime, old(keyboardMode.State()), a.allExtended, a.data, now);
          keyboardMode.State() == o.state
          && keyboardMode.feedbackLog == old(keyboardMode.feedbackLog) + o.events
          && feedbackMessage == ApplyFeedback(old(feedbackMessage), o.events)
    {
      r := Success(());
      match g.gestureType
      case Move =>
        if g.cursorPos.Some? {
          var moved := cursor.MoveCursor(g.cursorPos.value.0, g.cursorPos.value.1,
                                         DefaultWebcamWidth, DefaultWebcamHeight, now);
          if moved.Failure? {
            r := Failure(moved.error);
          }
        }
      case LeftClick => HandleClick(LeftButton, now);
      case RightClick => HandleClick(RightButton, now);
      case DoubleClick => HandleClick(BothClicks, now);
      case Scroll => HandleScroll(g.scrollDelta.GetOr(0.0), now);
      case Drag => cursor.ToggleDrag();
      case Keyboard => HandleKeyboard(g.fingerData, now);
      case Grab =>
      case WindowMove =>
      case WindowMinimize =>
        if isMacos {
          hotkeyLog := hotkeyLog + [["cmd", "m"]];
        }
      case WindowMaximize =>
      case TwoHandResize =>
      case Idle => HandleIdle(now);
    }

    /** The drag-release part of `cleanup`. */
    method Cleanup()
      requires Valid()
      modifies cursor
      ensures Valid() && !cursor.isDragging
      ensures cursor.mouseLog == old(cursor.mouseLog) + (if old(cursor.isDragging) then [Mouse.MouseUp] else [])
    {
      if cursor.isDragging {
        cursor.StopDrag();
      }
    }
  }

  /** The pointer event a click sends. */
  function ClickEvent(kind: ClickKind): Mouse.MouseAction
  {
    match kind
    case LeftButton => Mouse.Click("left")
    case RightButton => Mouse.Click("right")
    case BothClicks => Mouse.DoubleClick
  }
}
