/**
 * Cursor control: the mapping of a fingertip position in the camera frame to
 * a screen position (a dead margin around the frame, remapped to the full
 * screen), smoothing, the sensitivity and acceleration applied relative to
 * the previous cursor position, clamping to the screen, drag state, and the
 * platform translation of shortcut modifier keys.
 *
 * Calls into the operating system's pointer and keyboard are recorded in a
 * ghost log of `MouseAction`s. The square root used for the movement length
 * is a function the controller is built with; lemmas that need its value
 * require it to be exact (`IsSqrtFunction`).
 */
module Cursor {
  import opened Wrappers
  import opened Numeric
  import opened Smoothing

  /** The controller's fixed settings. */
  datatype CursorSettings = CursorSettings(
    screenWidth: int,
    screenHeight: int,
    deadZoneX: real,
    deadZoneY: real,
    sensitivity: real,
    useAcceleration: bool)

  // ---------------------------------------------------------------------
  // Camera frame to screen

  lemma DivBounds(a: real, b: real)
    requires 0.0 <= a <= b && 0.0 < b
    ensures 0.0 <= a / b <= 1.0
  {
  }

  lemma DivMonotone(a: real, b: real, c: real)
    requires a <= b && 0.0 < c
    ensures a / c <= b / c
  {
    assert b / c - a / c == (b - a) / c;
  }

  /**
   * A normalised coordinate clamped into `[dz, 1 - dz]` and stretched back
   * over [0, 1]: the margin of width `dz` on each side is dead.
   */
  function UnitRemap(norm: real, dz: real): (r: real)
    requires dz != 0.5
    // a dead zone wider than half the frame leaves nothing live: every coordinate maps to 0
    ensures 0.5 < dz ==> r == 0.0
  {
    ZeroOver(1.0 - 2.0 * dz);
    (Clamp(dz, 1.0 - dz, norm) - dz) / (1.0 - 2.0 * dz)
  }

  lemma UnitRemapBounds(norm: real, dz: real)
    requires 0.0 <= dz < 0.5
    ensures 0.0 <= UnitRemap(norm, dz) <= 1.0
  {
    DivBounds(Clamp(dz, 1.0 - dz, norm) - dz, 1.0 - 2.0 * dz);
  }

  lemma UnitRemapMonotone(n1: real, n2: real, dz: real)
    requires 0.0 <= dz < 0.5 && n1 <= n2
    ensures UnitRemap(n1, dz) <= UnitRemap(n2, dz)
  {
    DivMonotone(Clamp(dz, 1.0 - dz, n1) - dz, Clamp(dz, 1.0 - dz, n2) - dz, 1.0 - 2.0 * dz);
  }

  lemma UnitRemapLowMargin(norm: real, dz: real)
    requires 0.0 <= dz < 0.5 && norm <= dz
    ensures UnitRemap(norm, dz) == 0.0
  {
    assert Clamp(dz, 1.0 - dz, norm) - dz == 0.0;
    ZeroOver(1.0 - 2.0 * dz);
  }

  lemma ZeroOver(c: real)
    requires c != 0.0
    ensures 0.0 / c == 0.0
  {
  }

  lemma SelfOver(c: real)
    requires c != 0.0
    ensures c / c == 1.0
  {
  }

  lemma UnitRemapHighMargin(norm: real, dz: real)
    requires 0.0 <= dz < 0.5 && 1.0 - dz <= norm
    ensures UnitRemap(norm, dz) == 1.0
  {
    assert Clamp(dz, 1.0 - dz, norm) - dz == 1.0 - 2.0 * dz;
    SelfOver(1.0 - 2.0 * dz);
  }

  lemma UnitRemapCentre(dz: real)
    requires 0.0 <= dz < 0.5
    ensures UnitRemap(0.5, dz) == 0.5
  {
    var c := 1.0 - 2.0 * dz;
    assert Clamp(dz, 1.0 - dz, 0.5) - dz == 0.5 * c;
    HalfOf(c);
  }

  lemma HalfOf(c: real)
    requires c != 0.0
    ensures (0.5 * c) / c == 0.5
  {
  }

  /** One axis of `webcam_to_screen`, from the normalised coordinate to screen pixels. */
  function AxisToScreen(norm: real, dz: real, screen: int): (r: real)
    requires dz != 0.5
    ensures 0.5 < dz || screen == 0 ==> r == 0.0
  {
    UnitRemap(norm, dz) * screen as real
  }

  /** With a dead zone below one half, every coordinate lands on the screen. */
  lemma AxisToScreenBounds(norm: real, dz: real, screen: int)
    requires 0.0 <= dz < 0.5 && 0 <= screen
    ensures 0.0 <= AxisToScreen(norm, dz, screen) <= screen as real
  {
    var u := UnitRemap(norm, dz);
    UnitRemapBounds(norm, dz);
    MulNonNegative(u, screen as real);
    MulNonNegative(1.0 - u, screen as real);
    MulComplement(u, screen as real);
  }

  /** The mapping never reverses the order of two coordinates. */
  lemma AxisToScreenMonotone(n1: real, n2: real, dz: real, screen: int)
    requires 0.0 <= dz < 0.5 && 0 <= screen && n1 <= n2
    ensures AxisToScreen(n1, dz, screen) <= AxisToScreen(n2, dz, screen)
  {
    var u1, u2 := UnitRemap(n1, dz), UnitRemap(n2, dz);
    UnitRemapMonotone(n1, n2, dz);
    MulNonNegative(u2 - u1, screen as real);
    MulDistributes(screen as real, u1, u2);
    assert (u2 - u1) * screen as real == u2 * screen as real - u1 * screen as real;
  }

  /** Every coordinate inside the low dead margin maps where the margin edge maps: to 0. */
  lemma AxisToScreenLowMargin(norm: real, dz: real, screen: int)
    requires 0.0 <= dz < 0.5 && norm <= dz
    ensures AxisToScreen(norm, dz, screen) == AxisToScreen(dz, dz, screen) == 0.0
  {
    UnitRemapLowMargin(norm, dz);
    UnitRemapLowMargin(dz, dz);
  }

  /** Every coordinate inside the high dead margin maps to the far screen edge. */
  lemma AxisToScreenHighMargin(norm: real, dz: real, screen: int)
    requires 0.0 <= dz < 0.5 && 1.0 - dz <= norm
    ensures AxisToScreen(norm, dz, screen) == screen as real
  {
    UnitRemapHighMargin(norm, dz);
  }

  /** The middle of the frame maps to the middle of the screen. */
  lemma AxisToScreenCentre(dz: real, screen: int)
    requires 0.0 <= dz < 0.5
    ensures AxisToScreen(0.5, dz, screen) == screen as real / 2.0
  {
    UnitRemapCentre(dz);
  }

  /**
   * `webcam_to_screen`: a position in a `webcamWidth` x `webcamHeight` frame
   * to screen coordinates. A zero frame size, or a dead zone of exactly one
   * half, divides by zero.
   */
  function MapToScreen(s: CursorSettings, webcamX: real, webcamY: real, webcamWidth: int, webcamHeight: int)
    : (r: Result<(real, real)>)
    ensures r.Failure? <==>
      webcamWidth == 0 || webcamHeight == 0 || s.deadZoneX == 0.5 || s.deadZoneY == 0.5
    ensures r.Failure? ==> r.error == "ZeroDivisionError"
    ensures r.Success? ==> r.value.0 == AxisToScreen(webcamX / webcamWidth as real, s.deadZoneX, s.screenWidth)
    ensures r.Success? ==> r.value.1 == AxisToScreen(webcamY / webcamHeight as real, s.deadZoneY, s.screenHeight)
  {
    if webcamWidth == 0 || webcamHeight == 0 then Failure("ZeroDivisionError")
    else
      var normX := webcamX / webcamWidth as real;
      var normY := webcamY / webcamHeight as real;
      if s.deadZoneX == 0.5 || s.deadZoneY == 0.5 then Failure("ZeroDivisionError")
      else Success((AxisToScreen(normX, s.deadZoneX, s.screenWidth), AxisToScreen(normY, s.deadZoneY, s.screenHeight)))
  }

  /** A dead zone in [0, 0.5) and a non-empty frame: the result lies on the screen rectangle. */
  lemma MapToScreenOnScreen(s: CursorSettings, webcamX: real, webcamY: real, webcamWidth: int, webcamHeight: int)
    requires 0.0 <= s.deadZoneX < 0.5 && 0.0 <= s.deadZoneY < 0.5
    requires 0 <= s.screenWidth && 0 <= s.screenHeight
    requires webcamWidth != 0 && webcamHeight != 0
    ensures var r := MapToScreen(s, webcamX, webcamY, webcamWidth, webcamHeight);
      r.Success? && 0.0 <= r.value.0 <= s.screenWidth as real && 0.0 <= r.value.1 <= s.screenHeight as real
  {
    AxisToScreenBounds(webcamX / webcamWidth as real, s.deadZoneX, s.screenWidth);
    AxisToScreenBounds(webcamY / webcamHeight as real, s.deadZoneY, s.screenHeight);
  }

  lemma HalfOverWhole(w: int)
    requires w != 0
    ensures (w as real / 2.0) / w as real == 0.5
  {
  }

  /** The centre of the frame maps to the centre of the screen. */
  lemma WebcamCentreToScreenCentre(s: CursorSettings, webcamWidth: int, webcamHeight: int)
    requires 0.0 <= s.deadZoneX < 0.5 && 0.0 <= s.deadZoneY < 0.5
    requires webcamWidth != 0 && webcamHeight != 0
    ensures MapToScreen(s, webcamWidth as real / 2.0, webcamHeight as real / 2.0, webcamWidth, webcamHeight)
      == Success((s.screenWidth as real / 2.0, s.screenHeight as real / 2.0))
  {
    HalfOverWhole(webcamWidth);
    HalfOverWhole(webcamHeight);
    AxisToScreenCentre(s.deadZoneX, s.screenWidth);
    AxisToScreenCentre(s.deadZoneY, s.screenHeight);
  }

  // ---------------------------------------------------------------------
  // Sensitivity, acceleration and clamping

  /** The acceleration curve: up to 2x for long movements, or none when disabled. */
  function AccelerationFactor(distance: real, useAcceleration: bool): (a: real)
    ensures !useAcceleration ==> a == 1.0
    ensures useAcceleration && 0.0 <= distance ==> 1.0 <= a <= 2.0
  {
    if useAcceleration then Min(2.0, 1.0 + distance / 100.0) else 1.0
  }

  /** Longer movements are never accelerated less. */
  lemma AccelerationMonotone(d1: real, d2: real, useAcceleration: bool)
    requires d1 <= d2
    ensures AccelerationFactor(d1, useAcceleration) <= AccelerationFactor(d2, useAcceleration)
  {
  }

  /** From 100 pixels on, movements get the full 2x boost. */
  lemma AccelerationSaturates(distance: real)
    requires 100.0 <= distance
    ensures AccelerationFactor(distance, true) == 2.0
  {
  }

  /** `last + d * sensitivity * acceleration` on one axis. */
  function Displace(last: real, d: real, sensitivity: real, acceleration: real): real {
    last + d * sensitivity * acceleration
  }

  /** The `max(0, min(size - 1, v))` clamp of both coordinates. */
  function ClampToScreen(s: CursorSettings, p: (real, real)): (q: (real, real))
    ensures 1 <= s.screenWidth ==> 0.0 <= q.0 <= (s.screenWidth - 1) as real
    ensures 1 <= s.screenHeight ==> 0.0 <= q.1 <= (s.screenHeight - 1) as real
    ensures 0.0 <= p.0 <= (s.screenWidth - 1) as real ==> q.0 == p.0
    ensures 0.0 <= p.1 <= (s.screenHeight - 1) as real ==> q.1 == p.1
  {
    (Clamp(0.0, (s.screenWidth - 1) as real, p.0), Clamp(0.0, (s.screenHeight - 1) as real, p.1))
  }

  /**
   * The cursor position `move_cursor` sends for a smoothed point: with a
   * previous position the movement from it is scaled by sensitivity and
   * acceleration; the result is clamped to the screen.
   */
  function MovePosition(s: CursorSettings, sqrt: real -> real, last: Option<(real, real)>, smoothed: (real, real))
    : (p: (real, real))
    ensures p == ClampToScreen(s, p)
    ensures last.None? ==> p == ClampToScreen(s, smoothed)
  {
    var target := if last.None? then smoothed else Accelerated(s, sqrt, last.value, smoothed);
    ClampIdempotent(s, target);
    ClampToScreen(s, target)
  }

  /** `(dx * dx + dy * dy) ** 0.5`, through the given square root. */
  function Length(sqrt: real -> real, dx: real, dy: real): real {
    sqrt(dx * dx + dy * dy)
  }

  /** With an exact square root the length is non-negative, so acceleration is at least 1. */
  lemma LengthNonNegative(sqrt: real -> real, dx: real, dy: real)
    requires IsSqrtFunction(sqrt)
    ensures 0.0 <= Length(sqrt, dx, dy)
  {
    SumOfSquares(dx, dy);
  }

  /** The movement from `last` to `smoothed`, scaled by sensitivity and acceleration. */
  function Accelerated(s: CursorSettings, sqrt: real -> real, last: (real, real), smoothed: (real, real)): (real, real) {
    var dx, dy := smoothed.0 - last.0, smoothed.1 - last.1;
    var acceleration := AccelerationFactor(Length(sqrt, dx, dy), s.useAcceleration);
    (Displace(last.0, dx, s.sensitivity, acceleration), Displace(last.1, dy, s.sensitivity, acceleration))
  }

  lemma ClampIdempotent(s: CursorSettings, p: (real, real))
    ensures ClampToScreen(s, ClampToScreen(s, p)) == ClampToScreen(s, p)
  {
  }

  /** With unit sensitivity and no acceleration the cursor follows the smoothed point exactly. */
  lemma UnitGainFollowsSmoothed(s: CursorSettings, sqrt: real -> real, last: Option<(real, real)>, smoothed: (real, real))
    requires s.sensitivity == 1.0 && !s.useAcceleration
    ensures MovePosition(s, sqrt, last, smoothed) == ClampToScreen(s, smoothed)
  {
  }

  /** The result of one `move_cursor` call. */
  datatype MoveOutcome = MoveOutcome(smoother: PointState, lastPosition: Option<(real, real)>, moved: Result<(real, real)>)

  /**
   * `move_cursor` at time `now`: map to the screen, smooth, scale and clamp;
   * the clamped point is both the one sent and the one remembered. A
   * division by zero on the way leaves the position unchanged.
   */
  function MoveStep(s: CursorSettings, sqrt: real -> real, p: EuroParams, alpha: real, smoother: PointState,
                    last: Option<(real, real)>, fingerX: real, fingerY: real, webcamWidth: int, webcamHeight: int,
                    now: real): (o: MoveOutcome)
    ensures o.moved.Success? ==> o.lastPosition == Some(o.moved.value)
    ensures o.moved.Failure? ==> o.lastPosition == last
    ensures o.moved.Success? && 1 <= s.screenWidth && 1 <= s.screenHeight ==>
      0.0 <= o.moved.value.0 <= (s.screenWidth - 1) as real && 0.0 <= o.moved.value.1 <= (s.screenHeight - 1) as real
  {
    match MapToScreen(s, fingerX, fingerY, webcamWidth, webcamHeight)
    case Failure(e) => MoveOutcome(smoother, last, Failure(e))
    case Success(screen) =>
      var f := PointSmootherStep(p, alpha, smoother, screen, now);
      match f.output
      case Failure(e) => MoveOutcome(f.state, last, Failure(e))
      case Success(smoothed) =>
        var pos := MovePosition(s, sqrt, last, smoothed);
        MoveOutcome(f.state, Some(pos), Success(pos))
  }

  /**
   * After `reset_smoothing` the next move sends the unsmoothed screen point,
   * without sensitivity scaling or acceleration (only clamped).
   */
  lemma ResetThenMoveUsesRawPoint(s: CursorSettings, sqrt: real -> real, p: EuroParams, alpha: real,
                                  smoother: PointState, fingerX: real, fingerY: real,
                                  webcamWidth: int, webcamHeight: int, now: real)
    requires MapToScreen(s, fingerX, fingerY, webcamWidth, webcamHeight).Success?
    ensures MoveStep(s, sqrt, p, alpha, PointReset(smoother), None, fingerX, fingerY, webcamWidth, webcamHeight, now).moved
      == Success(ClampToScreen(s, MapToScreen(s, fingerX, fingerY, webcamWidth, webcamHeight).value))
  {
    var screen := MapToScreen(s, fingerX, fingerY, webcamWidth, webcamHeight).value;
    PointResetThenPassThrough(p, alpha, smoother, screen, now);
  }

  // ---------------------------------------------------------------------
  // Keys

  function LowerChar(c: char): char {
    if 'A' <= c <= 'Z' then (c as int + 32) as char else c
  }

  /** Lower-casing of the ASCII letters; every other character is kept. */
  function Lower(s: string): (r: string)
    ensures |r| == |s|
    ensures forall i | 0 <= i < |s| :: r[i] == LowerChar(s[i])
  {
    seq(|s|, i requires 0 <= i < |s| => LowerChar(s[i]))
  }

  predicate IsCommandKey(key: string) {
    Lower(key) == "cmd" || Lower(key) == "command"
  }

  predicate IsControlKey(key: string) {
    Lower(key) == "ctrl"
  }

  /** One key of `keyboard_shortcut`: the command key becomes control off macOS, control becomes command on it. */
  function TranslateKey(key: string, isMacos: bool): (r: string)
    ensures !IsCommandKey(key) && !IsControlKey(key) ==> r == key
    ensures r != key ==> (isMacos && r == "cmd") || (!isMacos && r == "ctrl")
  {
    if IsCommandKey(key) && !isMacos then "ctrl"
    else if IsControlKey(key) && isMacos then "cmd"
    else key
  }

  lemma LowerOfLowercase(s: string)
    requires forall i | 0 <= i < |s| :: 'a' <= s[i] <= 'z'
    ensures Lower(s) == s
  {
  }

  /**
   * A translated key is native to the platform: on macOS no key reads as
   * control, elsewhere no key reads as command.
   */
  lemma TranslateKeyNative(key: string, isMacos: bool)
    ensures isMacos ==> !IsControlKey(TranslateKey(key, isMacos))
    ensures !isMacos ==> !IsCommandKey(TranslateKey(key, isMacos))
  {
    LowerOfLowercase("ctrl");
    LowerOfLowercase("cmd");
    assert "ctrl" != "cmd" && "ctrl" != "command";
  }

  /** Translating twice is translating once. */
  lemma TranslateKeyIdempotent(key: string, isMacos: bool)
    ensures TranslateKey(TranslateKey(key, isMacos), isMacos) == TranslateKey(key, isMacos)
  {
    LowerOfLowercase("ctrl");
    LowerOfLowercase("cmd");
  }

  /** The key list `keyboard_shortcut` sends: one translated key per given key, in order. */
  method TranslateKeys(keys: seq<string>, isMacos: bool) returns (platformKeys: seq<string>)
    ensures |platformKeys| == |keys|
    ensures forall i | 0 <= i < |keys| :: platformKeys[i] == TranslateKey(keys[i], isMacos)
  {
    platformKeys := [];
    var i := 0;
    while i < |keys|
      invariant 0 <= i <= |keys| && |platformKeys| == i
      invariant forall j | 0 <= j < i :: platformKeys[j] == TranslateKey(keys[j], isMacos)
    {
      var key := keys[i];
      if IsCommandKey(key) && !isMacos {
        platformKeys := platformKeys + ["ctrl"];
      } else if IsControlKey(key) && isMacos {
        platformKeys := platformKeys + ["cmd"];
      } else {
        platformKeys := platformKeys + [key];
      }
      i := i + 1;
    }
  }

  // ---------------------------------------------------------------------
  // Pointer events and drag state

  datatype MouseAction =
    | MoveTo(position: (real, real))
    | Click(button: string)
    | DoubleClick
    | Scroll(clicks: int)
    | MouseDown
    | MouseUp
    | Hotkey(keys: seq<string>)

  predicate IsDragEvent(a: MouseAction) {
    a.MouseDown? || a.MouseUp?
  }

  /** The mouse-down and mouse-up events of a log, in order. */
  function DragEvents(log: seq<MouseAction>): seq<MouseAction> {
    if log == [] then []
    else DragEvents(log[..|log| - 1]) + (if IsDragEvent(log[|log| - 1]) then [log[|log| - 1]] else [])
  }

  /**
   * Downs and ups alternate starting with a down, and the button is held
   * exactly when the last of them was a down.
   */
  predicate DragConsistent(log: seq<MouseAction>, dragging: bool) {
    var events := DragEvents(log);
    (forall i | 0 <= i < |events| :: events[i] == if i % 2 == 0 then MouseDown else MouseUp)
    && (dragging <==> |events| % 2 == 1)
  }

  lemma DragEventsAppend(log: seq<MouseAction>, a: MouseAction)
    ensures DragEvents(log + [a]) == DragEvents(log) + (if IsDragEvent(a) then [a] else [])
  {
    assert (log + [a])[..|log|] == log;
  }

  /** Events other than button presses keep the drag record consistent. */
  lemma OtherEventKeepsDrag(log: seq<MouseAction>, dragging: bool, a: MouseAction)
    requires DragConsistent(log, dragging) && !IsDragEvent(a)
    ensures DragConsistent(log + [a], dragging)
  {
    DragEventsAppend(log, a);
  }

  /** A mouse-down while not dragging keeps downs and ups alternating. */
  lemma DownWhenReleased(log: seq<MouseAction>)
    requires DragConsistent(log, false)
    ensures DragConsistent(log + [MouseDown], true)
  {
    DragEventsAppend(log, MouseDown);
  }

  /** A mouse-up while dragging keeps downs and ups alternating. */
  lemma UpWhenHeld(log: seq<MouseAction>)
    requires DragConsistent(log, true)
    ensures DragConsistent(log + [MouseUp], false)
  {
    DragEventsAppend(log, MouseUp);
  }

  /** The cursor controller: fixed settings, a point smoother and the pointer state. */
  class CursorController {
    const screenWidth: int
    const screenHeight: int
    const deadZoneX: real
    const deadZoneY: real
    const sensitivity: real
    const useAcceleration: bool
    const isMacos: bool
    const sqrt: real -> real
    const smoother: PointSmoother
    var lastPosition: Option<(real, real)>
    var isDragging: bool
    ghost var mouseLog: seq<MouseAction>

    ghost predicate Valid()
      reads this
    {
      smoother.Valid() && this !in smoother.Repr() && DragConsistent(mouseLog, isDragging)
    }

    function Settings(): CursorSettings {
      CursorSettings(screenWidth, screenHeight, deadZoneX, deadZoneY, sensitivity, useAcceleration)
    }

    /** Both dead zones take the one configured `deadZone`. */
    constructor (screenWidth: int, screenHeight: int, deadZone: real, kind: SmootherKind, p: EuroParams,
                 alpha: real, sensitivity: real, useAcceleration: bool, isMacos: bool, sqrt: real -> real)
      ensures Valid() && fresh(smoother.Repr())
      ensures Settings() == CursorSettings(screenWidth, screenHeight, deadZone, deadZone, sensitivity, useAcceleration)
      ensures this.isMacos == isMacos && this.sqrt == sqrt && smoother.kind == kind
      ensures lastPosition.None? && !isDragging && mouseLog == []
    {
      this.screenWidth := screenWidth;
      this.screenHeight := screenHeight;
      deadZoneX := deadZone;
      deadZoneY := deadZone;
      this.sensitivity := sensitivity;
      this.useAcceleration := useAcceleration;
      this.isMacos := isMacos;
      this.sqrt := sqrt;
      smoother := new PointSmoother(kind, p, alpha);
      lastPosition := None;
      isDragging := false;
      mouseLog := [];
    }

    method WebcamToScreen(webcamX: real, webcamY: real, webcamWidth: int, webcamHeight: int)
      returns (r: Result<(real, real)>)
      ensures r == MapToScreen(Settings(), webcamX, webcamY, webcamWidth, webcamHeight)
    {
      if webcamWidth == 0 || webcamHeight == 0 {
        return Failure("ZeroDivisionError");
      }
      var normX := webcamX / webcamWidth as real;
      var normY := webcamY / webcamHeight as real;
      if deadZoneX == 0.5 || deadZoneY == 0.5 {
        return Failure("ZeroDivisionError");
      }
      var effectiveX := Max(deadZoneX, Min(1.0 - deadZoneX, normX));
      var effectiveY := Max(deadZoneY, Min(1.0 - deadZoneY, normY));
      var mappedX := (effectiveX - deadZoneX) / (1.0 - 2.0 * deadZoneX);
      var mappedY := (effectiveY - deadZoneY) / (1.0 - 2.0 * deadZoneY);
      assert mappedX == UnitRemap(normX, deadZoneX) && mappedY == UnitRemap(normY, deadZoneY);
      var screenX := mappedX * screenWidth as real;
      var screenY := mappedY * screenHeight as real;
      assert screenX == AxisToScreen(normX, deadZoneX, screenWidth);
      assert screenY == AxisToScreen(normY, deadZoneY, screenHeight);
      r := Success((screenX, screenY));
    }

    method MoveCursor(fingerX: real, fingerY: real, webcamWidth: int, webcamHeight: int, now: real)
      returns (r: Result<(real, real)>)
      requires Valid()
      modifies this, smoother.Repr()
      ensures Valid() && isDragging == old(isDragging)
      ensures var o := MoveStep(Settings(), sqrt, smoother.Params(), smoother.Alpha(), old(smoother.State()),
                                old(lastPosition), fingerX, fingerY, webcamWidth, webcamHeight, now);
        smoother.State() == o.smoother && lastPosition == o.lastPosition && r == o.moved
      ensures mouseLog == old(mouseLog) + (if r.Success? then [MoveTo(r.value)] else [])
    {
      var screen := WebcamToScreen(fingerX, fingerY, webcamWidth, webcamHeight);
      if screen.Failure? {
        return Failure(screen.error);
      }
      ghost var f := PointSmootherStep(smoother.Params(), smoother.Alpha(), smoother.State(), screen.value, now);
      var smoothed := smoother.Filter(screen.value, now);
      assert smoothed == f.output && smoother.State() == f.state;
      if smoothed.Failure? {
        return Failure(smoothed.error);
      }
      var position := PlaceCursor(smoothed.value);
      r := Success(position);
    }

    /** The second half of `move_cursor`: scale, clamp, send and remember the smoothed point. */
    method PlaceCursor(smoothed: (real, real)) returns (position: (real, real))
      requires Valid()
      modifies this
      ensures Valid() && isDragging == old(isDragging)
      ensures position == MovePosition(Settings(), sqrt, old(lastPosition), smoothed)
      ensures lastPosition == Some(position) && mouseLog == old(mouseLog) + [MoveTo(position)]
    {
      position := smoothed;
      if lastPosition.Some? {
        var dx := position.0 - lastPosition.value.0;
        var dy := position.1 - lastPosition.value.1;
        var acceleration := AccelerationFactor(Length(sqrt, dx, dy), useAcceleration);
        position := (Displace(lastPosition.value.0, dx, sensitivity, acceleration),
                     Displace(lastPosition.value.1, dy, sensitivity, acceleration));
      }
      position := ClampToScreen(Settings(), position);
      OtherEventKeepsDrag(mouseLog, isDragging, MoveTo(position));
      mouseLog := mouseLog + [MoveTo(position)];
      lastPosition := Some(position);
    }

    method LeftClick()
      requires Valid()
      modifies this
      ensures Valid() && isDragging == old(isDragging) && lastPosition == old(lastPosition)
      ensures mouseLog == old(mouseLog) + [Click("left")]
    {
      OtherEventKeepsDrag(mouseLog, isDragging, Click("left"));
      mouseLog := mouseLog + [Click("left")];
    }

    method RightClick()
      requires Valid()
      modifies this
      ensures Valid() && isDragging == old(isDragging) && lastPosition == old(lastPosition)
      ensures mouseLog == old(mouseLog) + [Click("right")]
    {
      OtherEventKeepsDrag(mouseLog, isDragging, Click("right"));
      mouseLog := mouseLog + [Click("right")];
    }

    method DoubleClick()
      requires Valid()
      modifies this
      ensures Valid() && isDragging == old(isDragging) && lastPosition == old(lastPosition)
      ensures mouseLog == old(mouseLog) + [MouseAction.DoubleClick]
    {
      OtherEventKeepsDrag(mouseLog, isDragging, MouseAction.DoubleClick);
      mouseLog := mouseLog + [MouseAction.DoubleClick];
    }

    /** Scrolls `amount` clicks up (direction 1) or down (direction -1). */
    method Scroll(direction: int, amount: int)
      requires Valid()
      modifies this
      ensures Valid() && isDragging == old(isDragging) && lastPosition == old(lastPosition)
      ensures mouseLog == old(mouseLog) + [MouseAction.Scroll(amount * direction)]
    {
      OtherEventKeepsDrag(mouseLog, isDragging, MouseAction.Scroll(amount * direction));
      mouseLog := mouseLog + [MouseAction.Scroll(amount * direction)];
    }

    method StartDrag()
      requires Valid()
      modifies this
      ensures Valid() && isDragging && lastPosition == old(lastPosition)
      ensures mouseLog == old(mouseLog) + (if old(isDragging) then [] else [MouseDown])
    {
      if !isDragging {
        DownWhenReleased(mouseLog);
        mouseLog := mouseLog + [MouseDown];
        isDragging := true;
      }
    }

    method StopDrag()
      requires Valid()
      modifies this
      ensures Valid() && !isDragging && lastPosition == old(lastPosition)
      ensures mouseLog == old(mouseLog) + (if old(isDragging) then [MouseUp] else [])
    {
      if isDragging {
        UpWhenHeld(mouseLog);
        mouseLog := mouseLog + [MouseUp];
        isDragging := false;
      }
    }

    method ToggleDrag()
      requires Valid()
      modifies this
      ensures Valid() && isDragging == !old(isDragging) && lastPosition == old(lastPosition)
      ensures mouseLog == old(mouseLog) + [if old(isDragging) then MouseUp else MouseDown]
    {
      if isDragging {
        StopDrag();
      } else {
        StartDrag();
      }
    }

    method KeyboardShortcut(keys: seq<string>)
      requires Valid()
      modifies this
      ensures Valid() && isDragging == old(isDragging) && lastPosition == old(lastPosition)
      ensures |mouseLog| == |old(mouseLog)| + 1 && mouseLog[..|old(mouseLog)|] == old(mouseLog)
      ensures var sent := mouseLog[|old(mouseLog)|];
        sent.Hotkey? && |sent.keys| == |keys|
        && forall i | 0 <= i < |keys| :: sent.keys[i] == TranslateKey(keys[i], isMacos)
    {
      var platformKeys := TranslateKeys(keys, isMacos);
      OtherEventKeepsDrag(mouseLog, isDragging, Hotkey(platformKeys));
      mouseLog := mouseLog + [Hotkey(platformKeys)];
    }

    method ResetSmoothing()
      requires Valid()
      modifies this, smoother.Repr()
      ensures Valid() && isDragging == old(isDragging) && mouseLog == old(mouseLog)
      ensures smoother.State() == PointReset(old(smoother.State())) && lastPosition.None?
    {
      smoother.Reset();
      lastPosition := None;
    }
  }
}
