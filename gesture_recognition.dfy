/**
 * The gesture classifier and debouncer. One frame's hand skeleton is
 * classified by per-finger extension tests and pinch tests whose thresholds
 * are multiples of the hand size, through a fixed first-match-wins table;
 * an all-fingers-open pose has to be held for a while before it counts as
 * KEYBOARD. A bounded history then only lets a gesture through once the
 * last `stabilityFrames` classifications agree and no cooldown is running.
 *
 * The hand size is a square root; it is kept as its square and every
 * threshold test is decided on squares (see Numeric), with lemmas stating
 * the test against any exact root.
 */
module Gestures {
  import opened Wrappers
  import opened Numeric
  import opened Hands

  datatype GestureType = Idle | Move | LeftClick | RightClick | DoubleClick | Scroll | Drag | Keyboard

  /** The three gestures that share the click cooldown. */
  predicate IsClick(t: GestureType) {
    t == LeftClick || t == RightClick || t == DoubleClick
  }

  /**
   * The gesture-specific payload. Where the source records `hand_size`, the
   * model records its square, `handSizeSquared`.
   */
  datatype GestureData =
    | NoData
    | BuildingKeyboard
    | HandSize(handSizeSquared: real)
    | CursorPos(x: real, y: real, handSizeSquared: real)
    | ScrollY(y: real, handSizeSquared: real)
    | ExtendedFingers(count: nat)

  /** A classification: type, confidence, payload and the time it was made. */
  datatype GestureState = GestureState(gestureType: GestureType, confidence: real, data: GestureData, timestamp: real)

  datatype RecognizerConfig = RecognizerConfig(
    fingerThreshold: real,
    pinchThreshold: real,
    stabilityFrames: nat,
    cooldownClickMs: int,
    cooldownScrollMs: int,
    keyboardHoldTime: real)

  const DefaultConfig := RecognizerConfig(0.15, 0.08, 3, 300, 50, 1.0)

  /** Tip and PIP (for the thumb: IP) landmark of each finger, thumb first. */
  const FingerTips: seq<nat> := [ThumbTip, IndexTip, MiddleTip, RingTip, PinkyTip]
  const FingerPips: seq<nat> := [ThumbIp, IndexPip, MiddlePip, RingPip, PinkyPip]

  /**
   * One finger's extension test: a finger is extended when its tip is above
   * its PIP joint by more than `fingerThreshold * handSize`; the thumb (tip
   * index 4) when its tip is that far from its IP joint horizontally.
   */
  function FingerExtended(fingerThreshold: real, h: Hand, tip: nat, pip: nat): (b: bool)
    requires tip < LandmarkCount && pip < LandmarkCount
    // with a non-negative threshold a finger counts only when its tip is above its PIP joint
    // (image y grows downwards), the thumb only when its tip is off to the side
    ensures b && 0.0 <= fingerThreshold && tip != ThumbTip ==> h.landmarks[tip].y < h.landmarks[pip].y
    ensures b && 0.0 <= fingerThreshold && tip == ThumbTip ==> h.landmarks[tip].x != h.landmarks[pip].x
  {
    var t, p := h.landmarks[tip], h.landmarks[pip];
    if tip != ThumbTip then ExceedsScaledRoot(p.y - t.y, fingerThreshold, HandSizeSquared(h))
    else ExceedsScaledRoot(Abs(t.x - p.x), fingerThreshold, HandSizeSquared(h))
  }

  /** The five extension flags, thumb first. */
  function ExtensionFlags(cfg: RecognizerConfig, h: Hand): (flags: seq<bool>)
    ensures |flags| == 5
  {
    seq(5, i requires 0 <= i < 5 => FingerExtended(cfg.fingerThreshold, h, FingerTips[i], FingerPips[i]))
  }

  /** The extension test stated against the hand size itself. */
  lemma ExtensionIff(cfg: RecognizerConfig, h: Hand, handSize: real, i: nat)
    requires IsHandSize(h, handSize) && i < 5
    ensures ExtensionFlags(cfg, h)[i] <==>
      var tip, pip := h.landmarks[FingerTips[i]], h.landmarks[FingerPips[i]];
      if i == 0 then Abs(tip.x - pip.x) > cfg.fingerThreshold * handSize
      else pip.y - tip.y > cfg.fingerThreshold * handSize
  {
    var tip, pip := h.landmarks[FingerTips[i]], h.landmarks[FingerPips[i]];
    if i == 0 {
      ExceedsScaledRootIff(Abs(tip.x - pip.x), cfg.fingerThreshold, HandSizeSquared(h), handSize);
    } else {
      ExceedsScaledRootIff(pip.y - tip.y, cfg.fingerThreshold, HandSizeSquared(h), handSize);
    }
  }

  /**
   * Pinch test between two landmarks: their distance in the image plane is
   * strictly below `pinchThreshold * handSize`.
   */
  function Pinched(cfg: RecognizerConfig, h: Hand, a: nat, b: nat): (p: bool)
    requires a < LandmarkCount && b < LandmarkCount
    // only a positive threshold and a hand of some size can report a pinch
    ensures p ==> 0.0 < cfg.pinchThreshold
    ensures HandSizeSquared(h) == 0.0 ==> !p
  {
    RootBelowScaledRoot(SquaredDistance(h.landmarks[a], h.landmarks[b]), cfg.pinchThreshold, HandSizeSquared(h))
  }

  /** The pinch test stated against the distance and the hand size themselves. */
  lemma PinchedIff(cfg: RecognizerConfig, h: Hand, a: nat, b: nat, distance: real, handSize: real)
    requires a < LandmarkCount && b < LandmarkCount
    requires IsRoot(distance, SquaredDistance(h.landmarks[a], h.landmarks[b]))
    requires IsHandSize(h, handSize)
    ensures Pinched(cfg, h, a, b) <==> distance < cfg.pinchThreshold * handSize
  {
    RootBelowScaledRootIff(SquaredDistance(h.landmarks[a], h.landmarks[b]), cfg.pinchThreshold,
                           HandSizeSquared(h), distance, handSize);
  }

  /** Python's `sum` over a list of booleans. */
  function CountTrue(flags: seq<bool>): (n: nat)
    ensures n <= |flags|
    ensures n == 0 <==> forall i | 0 <= i < |flags| :: !flags[i]
    ensures n == |flags| <==> forall i | 0 <= i < |flags| :: flags[i]
  {
    if flags == [] then 0
    else CountTrue(flags[1..]) + (if flags[0] then 1 else 0)
  }

  /** The features the classification table looks at. */
  datatype Features = Features(thumb: bool, index: bool, middle: bool, ring: bool, pinky: bool,
                               pinchIndexMiddle: bool, pinchThumbIndex: bool)
  {
    predicate AllExtended() {
      thumb && index && middle && ring && pinky
    }

    /** The five extension flags, thumb first. */
    function Flags(): seq<bool> {
      [thumb, index, middle, ring, pinky]
    }
  }

  function FeaturesOf(cfg: RecognizerConfig, h: Hand): (f: Features)
    ensures f.Flags() == ExtensionFlags(cfg, h)
    ensures f.AllExtended() <==> forall i | 0 <= i < 5 :: ExtensionFlags(cfg, h)[i]
    ensures f.pinchIndexMiddle == Pinched(cfg, h, IndexTip, MiddleTip)
    ensures f.pinchThumbIndex == Pinched(cfg, h, ThumbTip, IndexTip)
  {
    var e := ExtensionFlags(cfg, h);
    var f := Features(e[0], e[1], e[2], e[3], e[4], Pinched(cfg, h, IndexTip, MiddleTip), Pinched(cfg, h, ThumbTip, IndexTip));
    assert f.Flags() == e;
    f
  }

  /** The rule each gesture stands for, as a table independent of the classifier's code. */
  function RuleHolds(t: GestureType, f: Features): (b: bool)
    // on an open hand only the KEYBOARD, DOUBLE_CLICK and IDLE rules can hold
    ensures b && f.AllExtended() ==> t == Keyboard || t == DoubleClick || t == Idle
  {
    match t
    case Keyboard => f.AllExtended()
    case Move => f.index && !f.middle && !f.ring && !f.pinky && !f.thumb
    case LeftClick => f.index && f.middle && !f.ring && !f.pinky && f.pinchIndexMiddle
    case RightClick => f.index && f.middle && f.ring && !f.pinky && f.pinchIndexMiddle
    case DoubleClick => f.pinchThumbIndex
    case Scroll => f.index && f.middle && !f.ring && !f.pinky && !f.pinchIndexMiddle
    case Drag => f.thumb && !f.index && !f.middle && !f.ring && !f.pinky
    case Idle => true
  }

  /** The rules in the order they are tried. */
  const Precedence: seq<GestureType> := [Keyboard, Move, LeftClick, RightClick, DoubleClick, Scroll, Drag]

  /** The first rule of `rules` that holds, or Idle when none does. */
  function FirstMatch(rules: seq<GestureType>, f: Features): (t: GestureType)
    ensures t == Idle || t in rules
    ensures t != Idle ==> RuleHolds(t, f)
  {
    if rules == [] then Idle
    else if RuleHolds(rules[0], f) then rules[0]
    else FirstMatch(rules[1..], f)
  }

  /** What one classification returns and the keyboard timer it leaves behind. */
  datatype Recognition = Recognition(gesture: GestureState, keyboardStart: Option<real>)

  /** The IDLE state returned while the all-fingers pose is being held. */
  function BuildingState(now: real): GestureState {
    GestureState(Idle, 0.5, BuildingKeyboard, now)
  }

  /**
   * Classifying one frame at time `now` with the keyboard timer
   * `keyboardStart`: the all-fingers rule and its hold timer first, then the
   * remaining rules in order.
   */
  function Recognize(cfg: RecognizerConfig, h: Hand, keyboardStart: Option<real>, now: real): (r: Recognition)
    ensures r.gesture.timestamp == now
    ensures r.gesture.gestureType == Idle ==> r.gesture.confidence in {0.0, 0.5}
    ensures r.gesture.gestureType != Idle ==> r.gesture.confidence == 1.0
  {
    Classify(cfg, FeaturesOf(cfg, h), h.landmarks[IndexTip], h.landmarks[MiddleTip], HandSizeSquared(h), keyboardStart, now)
  }

  /**
   * The decision table of Recognize on the frame's features, with the index
   * and middle fingertips and the squared hand size for the payloads.
   */
  function Classify(cfg: RecognizerConfig, f: Features, indexTip: HandLandmark, middleTip: HandLandmark,
                    hs: real, keyboardStart: Option<real>, now: real): (r: Recognition)
    ensures r.gesture.timestamp == now
    ensures r.gesture.gestureType == Idle ==> r.gesture.confidence in {0.0, 0.5}
    ensures r.gesture.gestureType != Idle ==> r.gesture.confidence == 1.0
  {
    if f.AllExtended() then
      if keyboardStart.None? then Recognition(BuildingState(now), Some(now))
      else if now - keyboardStart.value >= cfg.keyboardHoldTime then
        Recognition(GestureState(Keyboard, 1.0, HandSize(hs), now), keyboardStart)
      else Recognition(BuildingState(now), keyboardStart)
    else
      var g :=
        if f.index && !f.middle && !f.ring && !f.pinky && !f.thumb then
          GestureState(Move, 1.0, CursorPos(indexTip.x, indexTip.y, hs), now)
        else if f.index && f.middle && !f.ring && !f.pinky && f.pinchIndexMiddle then
          GestureState(LeftClick, 1.0, HandSize(hs), now)
        else if f.index && f.middle && f.ring && !f.pinky && f.pinchIndexMiddle then
          GestureState(RightClick, 1.0, HandSize(hs), now)
        else if f.pinchThumbIndex then
          GestureState(DoubleClick, 1.0, HandSize(hs), now)
        else if f.index && f.middle && !f.ring && !f.pinky && !f.pinchIndexMiddle then
          GestureState(Scroll, 1.0, ScrollY((indexTip.y + middleTip.y) / 2.0, hs), now)
        else if f.thumb && !f.index && !f.middle && !f.ring && !f.pinky then
          GestureState(Drag, 1.0, HandSize(hs), now)
        else
          GestureState(Idle, 0.0, ExtendedFingers(CountTrue(f.Flags())), now);
      Recognition(g, None)
  }

  /** `FirstMatch` over `Precedence`, written out as the chain of rules it tries. */
  lemma PrecedenceTable(f: Features)
    ensures FirstMatch(Precedence, f) ==
      if RuleHolds(Keyboard, f) then Keyboard
      else if RuleHolds(Move, f) then Move
      else if RuleHolds(LeftClick, f) then LeftClick
      else if RuleHolds(RightClick, f) then RightClick
      else if RuleHolds(DoubleClick, f) then DoubleClick
      else if RuleHolds(Scroll, f) then Scroll
      else if RuleHolds(Drag, f) then Drag
      else Idle
  {
    var p1, p2, p3 := [Move, LeftClick, RightClick, DoubleClick, Scroll, Drag], [LeftClick, RightClick, DoubleClick, Scroll, Drag],
      [RightClick, DoubleClick, Scroll, Drag];
    var p4, p5, p6 := [DoubleClick, Scroll, Drag], [Scroll, Drag], [Drag];
    assert Precedence[1..] == p1 && p1[1..] == p2 && p2[1..] == p3 && p3[1..] == p4;
    assert p4[1..] == p5 && p5[1..] == p6 && p6[1..] == [];
    assert FirstMatch(Precedence, f) == if RuleHolds(Keyboard, f) then Keyboard else FirstMatch(p1, f);
    assert FirstMatch(p1, f) == if RuleHolds(Move, f) then Move else FirstMatch(p2, f);
    assert FirstMatch(p2, f) == if RuleHolds(LeftClick, f) then LeftClick else FirstMatch(p3, f);
    assert FirstMatch(p3, f) == if RuleHolds(RightClick, f) then RightClick else FirstMatch(p4, f);
    assert FirstMatch(p4, f) == if RuleHolds(DoubleClick, f) then DoubleClick else FirstMatch(p5, f);
    assert FirstMatch(p5, f) == if RuleHolds(Scroll, f) then Scroll else FirstMatch(p6, f);
    assert FirstMatch(p6, f) == if RuleHolds(Drag, f) then Drag else Idle;
  }

  lemma {:induction false} ClassifyFollowsPrecedence(cfg: RecognizerConfig, f: Features, indexTip: HandLandmark,
                                                      middleTip: HandLandmark, hs: real, keyboardStart: Option<real>, now: real)
    ensures var t := FirstMatch(Precedence, f);
      var r := Classify(cfg, f, indexTip, middleTip, hs, keyboardStart, now);
      (t == Keyboard ==> r.gesture.gestureType in {Keyboard, Idle}) &&
      (t != Keyboard ==> r.gesture.gestureType == t)
  {
    PrecedenceTable(f);
    var g := Classify(cfg, f, indexTip, middleTip, hs, keyboardStart, now).gesture;
    if f.AllExtended() {
      assert FirstMatch(Precedence, f) == Keyboard && g.gestureType in {Keyboard, Idle};
    } else if RuleHolds(Move, f) {
      assert FirstMatch(Precedence, f) == Move && g.gestureType == Move;
    } else if RuleHolds(LeftClick, f) {
      assert FirstMatch(Precedence, f) == LeftClick && g.gestureType == LeftClick;
    } else if RuleHolds(RightClick, f) {
      assert FirstMatch(Precedence, f) == RightClick && g.gestureType == RightClick;
    } else if RuleHolds(DoubleClick, f) {
      assert FirstMatch(Precedence, f) == DoubleClick && g.gestureType == DoubleClick;
    } else if RuleHolds(Scroll, f) {
      assert FirstMatch(Precedence, f) == Scroll && g.gestureType == Scroll;
    } else if RuleHolds(Drag, f) {
      assert FirstMatch(Precedence, f) == Drag && g.gestureType == Drag;
    } else {
      assert FirstMatch(Precedence, f) == Idle && g.gestureType == Idle;
    }
  }

  /**
   * The classifier follows the precedence table: the result is the first rule
   * that holds; when that rule is the all-fingers one, the result is KEYBOARD
   * or the IDLE hold state.
   */
  lemma RecognizeFollowsPrecedence(cfg: RecognizerConfig, h: Hand, keyboardStart: Option<real>, now: real)
    ensures var t := FirstMatch(Precedence, FeaturesOf(cfg, h));
      var r := Recognize(cfg, h, keyboardStart, now);
      (t == Keyboard ==> r.gesture.gestureType in {Keyboard, Idle}) &&
      (t != Keyboard ==> r.gesture.gestureType == t)
  {
    ClassifyFollowsPrecedence(cfg, FeaturesOf(cfg, h), h.landmarks[IndexTip], h.landmarks[MiddleTip],
                              HandSizeSquared(h), keyboardStart, now);
  }

  /** MOVE is returned exactly when only the index finger is extended, and it carries the index tip. */
  lemma MoveIff(cfg: RecognizerConfig, h: Hand, keyboardStart: Option<real>, now: real)
    ensures var e := ExtensionFlags(cfg, h);
      var r := Recognize(cfg, h, keyboardStart, now);
      (r.gesture.gestureType == Move <==> !e[0] && e[1] && !e[2] && !e[3] && !e[4]) &&
      (r.gesture.gestureType == Move ==>
        r.gesture.data.CursorPos? &&
        r.gesture.data.x == h.landmarks[IndexTip].x && r.gesture.data.y == h.landmarks[IndexTip].y)
  {
    var f := FeaturesOf(cfg, h);
    assert f.Flags()[0] == f.thumb && f.Flags()[1] == f.index && f.Flags()[2] == f.middle;
    assert f.Flags()[3] == f.ring && f.Flags()[4] == f.pinky;
  }

  /**
   * With index and middle extended and ring and pinky curled: an index-middle
   * pinch clicks, otherwise a thumb-index pinch double-clicks, otherwise the
   * hand scrolls at the mean height of the two tips.
   */
  lemma TwoFingerGestures(cfg: RecognizerConfig, h: Hand, keyboardStart: Option<real>, now: real)
    requires var e := ExtensionFlags(cfg, h); e[1] && e[2] && !e[3] && !e[4]
    ensures var g := Recognize(cfg, h, keyboardStart, now).gesture;
      (Pinched(cfg, h, IndexTip, MiddleTip) ==> g.gestureType == LeftClick) &&
      (!Pinched(cfg, h, IndexTip, MiddleTip) && Pinched(cfg, h, ThumbTip, IndexTip) ==> g.gestureType == DoubleClick) &&
      (!Pinched(cfg, h, IndexTip, MiddleTip) && !Pinched(cfg, h, ThumbTip, IndexTip) ==>
        g.gestureType == Scroll &&
        g.data == ScrollY((h.landmarks[IndexTip].y + h.landmarks[MiddleTip].y) / 2.0, HandSizeSquared(h)))
  {
    var f := FeaturesOf(cfg, h);
    assert f.Flags()[1] == f.index && f.Flags()[2] == f.middle;
    assert f.Flags()[3] == f.ring && f.Flags()[4] == f.pinky;
  }

  /** The IDLE fallback reports how many fingers are extended. */
  lemma IdleFallbackCountsFingers(cfg: RecognizerConfig, h: Hand, keyboardStart: Option<real>, now: real)
    ensures var g := Recognize(cfg, h, keyboardStart, now).gesture;
      g.gestureType == Idle && g.data != BuildingKeyboard ==>
        g.confidence == 0.0 && g.data == ExtendedFingers(CountTrue(ExtensionFlags(cfg, h)))
        && CountTrue(ExtensionFlags(cfg, h)) < 5
  {
    var f := FeaturesOf(cfg, h);
    if !f.AllExtended() {
      assert exists i | 0 <= i < 5 :: !f.Flags()[i];
    }
  }

  /**
   * The keyboard hold timer: the first all-fingers frame starts it and returns
   * the IDLE hold state; KEYBOARD needs the timer to have run for
   * `keyboardHoldTime`; any other pose clears it.
   */
  lemma KeyboardHold(cfg: RecognizerConfig, h: Hand, keyboardStart: Option<real>, now: real)
    ensures var all := FeaturesOf(cfg, h).AllExtended();
      var r := Recognize(cfg, h, keyboardStart, now);
      (all && keyboardStart.None? ==> r.gesture == BuildingState(now) && r.keyboardStart == Some(now)) &&
      (all && keyboardStart.Some? ==> r.keyboardStart == keyboardStart) &&
      (r.gesture.gestureType == Keyboard <==>
        all && keyboardStart.Some? && now - keyboardStart.value >= cfg.keyboardHoldTime) &&
      (!all ==> r.keyboardStart.None?)
  {
  }

  /** Python's `deque(maxlen=n).append(g)`: the oldest entries fall out. */
  function BoundedAppend(history: seq<GestureState>, g: GestureState, n: nat): (r: seq<GestureState>)
    requires |history| <= n
    ensures |r| == if |history| < n then |history| + 1 else n
    ensures exists k | 0 <= k <= |history| + 1 :: r == (history + [g])[k..]
    ensures 0 < n ==> r[|r| - 1] == g
  {
    var full := history + [g];
    if |full| <= n then
      assert full == full[0..];
      full
    else
      full[|full| - n..]
  }

  /** The set of gesture types in the history, as `set(gesture_types)`. */
  function TypesIn(history: seq<GestureState>): set<GestureType> {
    set i | 0 <= i < |history| :: history[i].gestureType
  }

  /** Every entry of a non-empty history has the same type. */
  predicate Uniform(history: seq<GestureState>) {
    |history| > 0 && forall i | 0 <= i < |history| :: history[i].gestureType == history[0].gestureType
  }

  /** `len(set(gesture_types)) == 1` says exactly that the window is uniform. */
  lemma {:induction false} SingleTypeIff(history: seq<GestureState>)
    ensures |TypesIn(history)| == 1 <==> Uniform(history)
  {
    if Uniform(history) {
      assert TypesIn(history) == {history[0].gestureType};
    } else if |history| > 0 {
      var i :| 0 <= i < |history| && history[i].gestureType != history[0].gestureType;
      var rest := TypesIn(history) - {history[0].gestureType};
      assert history[i].gestureType in rest;
      assert |TypesIn(history)| == |rest| + 1;
    }
  }

  /** The recogniser's mutable state. */
  datatype RecognizerState = RecognizerState(
    history: seq<GestureState>,
    stableGesture: Option<GestureState>,
    lastClickTime: real,
    lastScrollTime: real,
    keyboardModeStart: Option<real>,
    inKeyboardMode: bool)

  const InitialState := RecognizerState([], None, 0.0, 0.0, None, false)

  function ClickCooldown(cfg: RecognizerConfig): real {
    cfg.cooldownClickMs as real / 1000.0
  }

  function ScrollCooldown(cfg: RecognizerConfig): real {
    cfg.cooldownScrollMs as real / 1000.0
  }

  /** Whether a uniform window of type `t` is held back by its cooldown at `now`. */
  predicate CoolingDown(cfg: RecognizerConfig, s: RecognizerState, t: GestureType, now: real) {
    (IsClick(t) && now - s.lastClickTime < ClickCooldown(cfg))
    || (t == Scroll && now - s.lastScrollTime < ScrollCooldown(cfg))
  }

  datatype Step = Step(state: RecognizerState, output: Option<GestureState>)

  /**
   * The debouncing half of `process_landmarks`: the frame's classification
   * `g` enters the bounded history, and it is emitted when the window is
   * full, holds a single type and that type's cooldown has run out.
   */
  function Debounce(cfg: RecognizerConfig, s: RecognizerState, g: GestureState, now: real): (r: Step)
    requires |s.history| <= cfg.stabilityFrames
    ensures |r.state.history| <= cfg.stabilityFrames
  {
    var history := BoundedAppend(s.history, g, cfg.stabilityFrames);
    var s1 := s.(history := history);
    if |history| < cfg.stabilityFrames then Step(s1, None)
    else if |TypesIn(history)| != 1 then Step(s1, None)
    else
      var t := history[0].gestureType;
      if IsClick(t) && now - s.lastClickTime < ClickCooldown(cfg) then Step(s1, None)
      else if t == Scroll && now - s.lastScrollTime < ScrollCooldown(cfg) then Step(s1, None)
      else
        Step(s1.(stableGesture := Some(g),
                 lastClickTime := if IsClick(t) then now else s.lastClickTime,
                 lastScrollTime := if !IsClick(t) && t == Scroll then now else s.lastScrollTime),
             Some(g))
  }

  /** One call of `process_landmarks` at time `now`. */
  function Process(cfg: RecognizerConfig, s: RecognizerState, landmarks: Option<Hand>, now: real): (r: Step)
    requires |s.history| <= cfg.stabilityFrames
    ensures |r.state.history| <= cfg.stabilityFrames
  {
    if landmarks.None? then
      Step(s.(history := [], stableGesture := None, keyboardModeStart := None), Some(GestureState(Idle, 0.0, NoData, now)))
    else
      var rec := Recognize(cfg, landmarks.value, s.keyboardModeStart, now);
      Debounce(cfg, s.(keyboardModeStart := rec.keyboardStart), rec.gesture, now)
  }

  /** No hand: the history and the keyboard timer are cleared and IDLE with confidence 0 is returned. */
  lemma NoHandGivesIdle(cfg: RecognizerConfig, s: RecognizerState, now: real)
    requires |s.history| <= cfg.stabilityFrames
    ensures var r := Process(cfg, s, None, now);
      r.output == Some(GestureState(Idle, 0.0, NoData, now)) &&
      r.state.history == [] && r.state.stableGesture.None? && r.state.keyboardModeStart.None? &&
      r.state.lastClickTime == s.lastClickTime && r.state.lastScrollTime == s.lastScrollTime
  {
  }

  /**
   * Debounce: the new history is the bounded append of the frame's
   * classification `g`; a gesture is emitted exactly when the window is full,
   * uniform and not cooling down, and the emitted gesture is `g` itself, of
   * the window's type. The keyboard timer is not touched.
   */
  lemma DebounceIff(cfg: RecognizerConfig, s: RecognizerState, g: GestureState, now: real)
    requires |s.history| <= cfg.stabilityFrames
    ensures var r := Debounce(cfg, s, g, now);
      var history := r.state.history;
      history == BoundedAppend(s.history, g, cfg.stabilityFrames) &&
      r.state.keyboardModeStart == s.keyboardModeStart &&
      (r.output.Some? <==>
        |history| == cfg.stabilityFrames && Uniform(history) && !CoolingDown(cfg, s, g.gestureType, now)) &&
      (r.output.Some? ==>
        r.output.value == g && r.state.stableGesture == r.output &&
        forall i | 0 <= i < |history| :: history[i].gestureType == g.gestureType)
  {
    var history := BoundedAppend(s.history, g, cfg.stabilityFrames);
    SingleTypeIff(history);
    if 0 < cfg.stabilityFrames && Uniform(history) {
      assert history[|history| - 1].gestureType == history[0].gestureType;
    }
  }

  /** While the window is still filling, nothing is emitted. */
  lemma FillingGivesNone(cfg: RecognizerConfig, s: RecognizerState, g: GestureState, now: real)
    requires |s.history| + 1 < cfg.stabilityFrames
    ensures Debounce(cfg, s, g, now).output.None?
    ensures |Debounce(cfg, s, g, now).state.history| == |s.history| + 1
  {
  }

  /**
   * Cooldown timers: an emitted click sets only the click timer to `now`, an
   * emitted scroll only the scroll timer; everything else leaves both alone.
   */
  lemma CooldownTimers(cfg: RecognizerConfig, s: RecognizerState, g: GestureState, now: real)
    requires |s.history| <= cfg.stabilityFrames
    ensures var r := Debounce(cfg, s, g, now);
      (r.output.Some? && IsClick(g.gestureType) ==>
        r.state.lastClickTime == now && r.state.lastScrollTime == s.lastScrollTime) &&
      (r.output.Some? && g.gestureType == Scroll ==>
        r.state.lastScrollTime == now && r.state.lastClickTime == s.lastClickTime) &&
      (r.output.None? || (!IsClick(g.gestureType) && g.gestureType != Scroll) ==>
        r.state.lastClickTime == s.lastClickTime && r.state.lastScrollTime == s.lastScrollTime)
  {
    DebounceIff(cfg, s, g, now);
  }

  /** A click is never emitted while `now - lastClickTime` is below the click cooldown. */
  lemma ClickCooldownHolds(cfg: RecognizerConfig, s: RecognizerState, g: GestureState, now: real)
    requires |s.history| <= cfg.stabilityFrames
    requires now - s.lastClickTime < ClickCooldown(cfg)
    ensures var r := Debounce(cfg, s, g, now);
      r.output.Some? ==> !IsClick(r.output.value.gestureType)
  {
    DebounceIff(cfg, s, g, now);
  }

  /**
   * The gesture recogniser: configuration plus the mutable state the source
   * keeps in its fields.
   */
  class GestureRecognizer {
    const config: RecognizerConfig
    var gestureHistory: seq<GestureState>
    var stableGesture: Option<GestureState>
    var lastClickTime: real
    var lastScrollTime: real
    var keyboardModeStart: Option<real>
    var inKeyboardMode: bool

    /** The deque never holds more than `stabilityFrames` entries. */
    ghost predicate Valid()
      reads this
    {
      |gestureHistory| <= config.stabilityFrames
    }

    function State(): RecognizerState
      reads this
    {
      RecognizerState(gestureHistory, stableGesture, lastClickTime, lastScrollTime, keyboardModeStart, inKeyboardMode)
    }

    constructor(config: RecognizerConfig)
      ensures Valid() && this.config == config && State() == InitialState
    {
      this.config := config;
      gestureHistory := [];
      stableGesture := None;
      lastClickTime := 0.0;
      lastScrollTime := 0.0;
      keyboardModeStart := None;
      inKeyboardMode := false;
    }

    /** `_recognize_gesture`: classifies and updates the keyboard timer. */
    method RecognizeGesture(h: Hand, now: real) returns (g: GestureState)
      modifies this
      ensures var r := Recognize(config, h, old(keyboardModeStart), now);
        g == r.gesture && keyboardModeStart == r.keyboardStart
      ensures gestureHistory == old(gestureHistory) && stableGesture == old(stableGesture)
      ensures lastClickTime == old(lastClickTime) && lastScrollTime == old(lastScrollTime)
      ensures inKeyboardMode == old(inKeyboardMode)
    {
      var r := Recognize(config, h, keyboardModeStart, now);
      keyboardModeStart := r.keyboardStart;
      g := r.gesture;
    }

    /** `process_landmarks` at time `now`. */
    method ProcessLandmarks(landmarks: Option<Hand>, now: real) returns (result: Option<GestureState>)
      requires Valid()
      modifies this
      ensures Valid()
      ensures Step(State(), result) == Process(config, old(State()), landmarks, now)
    {
      if landmarks.None? {
        gestureHistory := [];
        stableGesture := None;
        keyboardModeStart := None;
        return Some(GestureState(Idle, 0.0, NoData, now));
      }
      var current := RecognizeGesture(landmarks.value, now);
      result := DebounceGesture(current, now);
    }

    /** The debouncing half of `process_landmarks`, on the frame's classification `current`. */
    method DebounceGesture(current: GestureState, now: real) returns (result: Option<GestureState>)
      requires Valid()
      modifies this
      ensures Valid()
      ensures Step(State(), result) == Debounce(config, old(State()), current, now)
    {
      ghost var s := State();
      ghost var s1 := s.(history := BoundedAppend(s.history, current, config.stabilityFrames));
      gestureHistory := BoundedAppend(gestureHistory, current, config.stabilityFrames);
      assert State() == s1;
      if |gestureHistory| < config.stabilityFrames {
        return None;
      }
      if |TypesIn(gestureHistory)| != 1 {
        return None;
      }
      var stableType := gestureHistory[0].gestureType;
      if IsClick(stableType) && now - lastClickTime < ClickCooldown(config) {
        return None;
      }
      if stableType == Scroll && now - lastScrollTime < ScrollCooldown(config) {
        return None;
      }
      stableGesture := Some(current);
      if IsClick(stableType) {
        lastClickTime := now;
      } else if stableType == Scroll {
        lastScrollTime := now;
      }
      result := stableGesture;
    }

    /** `reset`: every field back to its initial value. */
    method Reset()
      modifies this
      ensures Valid() && State() == InitialState
    {
      gestureHistory := [];
      stableGesture := None;
      lastClickTime := 0.0;
      lastScrollTime := 0.0;
      keyboardModeStart := None;
      inKeyboardMode := false;
    }
  }
}
