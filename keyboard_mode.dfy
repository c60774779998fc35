/**
 * The keyboard shortcut mode: a hold-to-activate state machine. Holding all
 * five fingers extended for `holdTime` seconds makes the mode active; the
 * next frame without all fingers extended is read as a finger-count pattern
 * that selects a shortcut (escape, enter, copy, paste, app switch).
 *
 * The pure parts (shortcut detection, key choice, the status report and one
 * `update` step) are functions; `KeyboardMode` is the object that keeps the
 * state between frames and records what its feedback callback receives.
 */
module Keyboard {
  import opened Wrappers
  import opened Numeric

  datatype KeyboardShortcut = Escape | Enter | Copy | Paste | AppSwitch {
    /** The enum's string value, as passed to the feedback callback. */
    function Value(): (v: string)
      ensures v != []
    {
      match this
      case Escape => "escape"
      case Enter => "enter"
      case Copy => "copy"
      case Paste => "paste"
      case AppSwitch => "app_switch"
    }
  }

  /**
   * The finger pattern handed to `update`: the `finger_count` and
   * `thumb_extended` entries of a dictionary, either of which may be missing.
   */
  datatype FingerData = FingerData(fingerCount: Option<int>, thumbExtended: Option<bool>) {
    /** A missing count reads as 0. */
    function Count(): int { fingerCount.GetOr(0) }
    /** A missing thumb flag reads as false. */
    function Thumb(): bool { thumbExtended.GetOr(false) }
  }

  /** The empty dictionary the application passes when the hand is idle. */
  const NoFingerData := FingerData(None, None)

  /** Maps the finger pattern seen after activation to a shortcut, if any. */
  function DetectShortcut(d: FingerData): (r: Option<KeyboardShortcut>)
    ensures r.Some? <==> 1 <= d.Count() <= 4 || (d.Count() == 0 && d.Thumb())
    ensures r.Some? ==> ShortcutPattern(r.value).Count() == d.Count()
    ensures r == Some(AppSwitch) ==> d.Thumb()
  {
    var count := d.Count();
    if count == 1 then Some(Escape)
    else if count == 2 then Some(Enter)
    else if count == 3 then Some(Copy)
    else if count == 4 then Some(Paste)
    else if count == 0 && d.Thumb() then Some(AppSwitch)
    else None
  }

  /** A finger pattern that selects each shortcut: its partner for round trips. */
  function ShortcutPattern(s: KeyboardShortcut): FingerData {
    match s
    case Escape => FingerData(Some(1), Some(false))
    case Enter => FingerData(Some(2), Some(false))
    case Copy => FingerData(Some(3), Some(false))
    case Paste => FingerData(Some(4), Some(false))
    case AppSwitch => FingerData(Some(0), Some(true))
  }

  /** Every shortcut has a finger pattern, and detection recovers the shortcut from it. */
  lemma DetectShortcutRoundTrip(s: KeyboardShortcut)
    ensures DetectShortcut(ShortcutPattern(s)) == Some(s)
  {
  }

  /** Detection looks only at the count and the thumb flag, after defaults are applied. */
  lemma DetectShortcutUsesDefaults(d: FingerData)
    ensures DetectShortcut(d) == DetectShortcut(FingerData(Some(d.Count()), Some(d.Thumb())))
  {
  }

  /**
   * One extended finger selects Escape whether or not the thumb is also
   * extended: the thumb flag only matters when the count is 0.
   */
  lemma OneFingerWithThumbIsEscape()
    ensures DetectShortcut(FingerData(Some(1), Some(true))) == Some(Escape)
  {
  }

  /** The empty dictionary selects no shortcut. */
  lemma NoFingerDataNoShortcut()
    ensures DetectShortcut(NoFingerData).None?
  {
  }

  /** A keystroke sent to the operating system. */
  datatype KeyAction = Press(key: string) | Hotkey(keys: seq<string>)

  /** The keys `execute_shortcut` sends for a shortcut on the given platform. */
  function ShortcutKeys(s: KeyboardShortcut, isMacos: bool): (a: KeyAction)
    ensures a.Press? <==> s == Escape || s == Enter
    ensures s == Escape ==> a == Press("escape")
    ensures s == Enter ==> a == Press("enter")
    ensures a.Hotkey? ==> |a.keys| == 2
    ensures a.Hotkey? ==> a.keys[0] == (if isMacos then "cmd" else if s == AppSwitch then "alt" else "ctrl")
    ensures a.Hotkey? ==> a.keys[1] == (if s == Copy then "c" else if s == Paste then "v" else "tab")
  {
    var modifier := if isMacos then "cmd" else "ctrl";
    match s
    case Escape => Press("escape")
    case Enter => Press("enter")
    case Copy => Hotkey([modifier, "c"])
    case Paste => Hotkey([modifier, "v"])
    case AppSwitch => if isMacos then Hotkey(["cmd", "tab"]) else Hotkey(["alt", "tab"])
  }

  /** macOS combinations use only `cmd`; elsewhere `cmd` is never sent. */
  lemma ShortcutKeysPlatformModifier(s: KeyboardShortcut, isMacos: bool)
    ensures var a := ShortcutKeys(s, isMacos);
      a.Hotkey? ==> (isMacos <==> "cmd" in a.keys)
  {
  }

  /** Distinct shortcuts send distinct keys on the same platform. */
  lemma ShortcutKeysInjective(s: KeyboardShortcut, t: KeyboardShortcut, isMacos: bool)
    requires s != t
    ensures ShortcutKeys(s, isMacos) != ShortcutKeys(t, isMacos)
  {
    var a, b := ShortcutKeys(s, isMacos), ShortcutKeys(t, isMacos);
    if a.Hotkey? && b.Hotkey? {
      assert a.keys[0] != b.keys[0] || a.keys[1] != b.keys[1];
    }
  }

  /** A notification to the feedback callback. */
  datatype Feedback =
    | KeyboardActivating(remaining: real)
    | KeyboardActive
    | KeyboardInactive
    | ShortcutExecuted(shortcut: string)

  /** The mode's state: whether it is active, and when the current hold began. */
  datatype KeyboardState = KeyboardState(isActive: bool, activationStartTime: Option<real>)

  const InitialKeyboardState := KeyboardState(false, None)

  /** A running activation timer implies the mode is not active. */
  predicate TimerExcludesActive(s: KeyboardState) {
    s.activationStartTime.Some? ==> !s.isActive
  }

  /** Python truthiness of the optional start time: None and 0.0 are false. */
  predicate TimerTruthy(t: Option<real>) {
    t.Some? && t.value != 0.0
  }

  /** What one `update` call does: the new state, the returned shortcut, the notifications. */
  datatype Outcome = Outcome(state: KeyboardState, shortcut: Option<KeyboardShortcut>, events: seq<Feedback>)

  /** One call of `update(allExtended, d)` at time `now`. */
  function KeyboardStep(holdTime: real, s: KeyboardState, allExtended: bool, d: FingerData, now: real): (o: Outcome)
    // the mode turns on only when a truthy timer has run for the hold time
    ensures o.state.isActive && !s.isActive ==>
      allExtended && TimerTruthy(s.activationStartTime) && now - s.activationStartTime.value >= holdTime
    // it turns off only by returning a shortcut, the one the finger pattern selects
    ensures s.isActive && !o.state.isActive ==> o.shortcut.Some?
    ensures o.shortcut.Some? ==> o.shortcut == DetectShortcut(d) && o.state == ExitState()
  {
    if allExtended then
      if !s.isActive && s.activationStartTime.None? then
        Outcome(s.(activationStartTime := Some(now)), None, [KeyboardActivating(holdTime)])
      else if TimerTruthy(s.activationStartTime) && !s.isActive then
        var held := now - s.activationStartTime.value;
        var remaining := Max(0.0, holdTime - held);
        if held >= holdTime then
          Outcome(KeyboardState(true, None), None, [KeyboardActivating(remaining), KeyboardActive])
        else
          Outcome(s, None, [KeyboardActivating(remaining)])
      else
        Outcome(s, None, [])
    else if s.isActive then
      match DetectShortcut(d)
      case Some(shortcut) => Outcome(ExitState(), Some(shortcut), [KeyboardInactive])
      case None => Outcome(s, None, [])
    else
      Outcome(s.(activationStartTime := None), None, [KeyboardInactive])
  }

  /** The state `_exit` and `force_exit` leave behind: inactive with no timer. */
  function ExitState(): (s: KeyboardState)
    ensures !s.isActive && s.activationStartTime.None?
  {
    InitialKeyboardState
  }

  /** Every step keeps a running timer and the active flag apart. */
  lemma StepPreservesTimerInvariant(holdTime: real, s: KeyboardState, allExtended: bool, d: FingerData, now: real)
    requires TimerExcludesActive(s)
    ensures TimerExcludesActive(KeyboardStep(holdTime, s, allExtended, d, now).state)
  {
  }

  /** Holding all fingers while inactive with no timer starts the timer at `now`. */
  lemma ActivationStarts(holdTime: real, s: KeyboardState, d: FingerData, now: real)
    requires !s.isActive && s.activationStartTime.None?
    ensures KeyboardStep(holdTime, s, true, d, now)
      == Outcome(KeyboardState(false, Some(now)), None, [KeyboardActivating(holdTime)])
  {
  }

  /**
   * While activating, the mode becomes active (and the timer stops) exactly
   * when the hold has lasted `holdTime`; otherwise nothing changes.
   */
  lemma ActivationCompletesIff(holdTime: real, start: real, d: FingerData, now: real)
    requires start != 0.0
    ensures var o := KeyboardStep(holdTime, KeyboardState(false, Some(start)), true, d, now);
      (o.state.isActive <==> now - start >= holdTime)
      && (o.state.isActive ==> o.state.activationStartTime.None?)
      && (!o.state.isActive ==> o.state == KeyboardState(false, Some(start)))
      && o.shortcut.None?
  {
  }

  /** Holding all fingers while active changes nothing: activation is idempotent. */
  lemma ActiveIsIdempotent(holdTime: real, s: KeyboardState, d: FingerData, now: real)
    requires s.isActive
    ensures KeyboardStep(holdTime, s, true, d, now) == Outcome(s, None, [])
  {
  }

  /** A shortcut is returned iff the mode was active, the hand opened, and the pattern selects one. */
  lemma ShortcutOnlyOnRelease(holdTime: real, s: KeyboardState, allExtended: bool, d: FingerData, now: real)
    ensures var o := KeyboardStep(holdTime, s, allExtended, d, now);
      o.shortcut.Some? <==> s.isActive && !allExtended && DetectShortcut(d).Some?
  {
  }

  /**
   * Releasing while active: a detected shortcut is returned and the mode
   * exits; with no shortcut the mode stays active and returns nothing.
   */
  lemma ReleaseWhileActive(holdTime: real, s: KeyboardState, d: FingerData, now: real)
    requires s.isActive
    ensures var o := KeyboardStep(holdTime, s, false, d, now);
      o.shortcut == DetectShortcut(d)
      && (o.shortcut.Some? ==> o.state == ExitState())
      && (o.shortcut.None? ==> o.state == s)
  {
  }

  /** Releasing while inactive clears any timer and returns nothing. */
  lemma ReleaseWhileInactive(holdTime: real, s: KeyboardState, d: FingerData, now: real)
    requires !s.isActive
    ensures KeyboardStep(holdTime, s, false, d, now)
      == Outcome(KeyboardState(false, None), None, [KeyboardInactive])
  {
  }

  /**
   * A timer that started at time 0.0 reads as false, so the hold never
   * completes: holding all fingers changes nothing at any later time.
   */
  lemma ZeroStartNeverActivates(holdTime: real, d: FingerData, now: real)
    ensures var s := KeyboardState(false, Some(0.0));
      KeyboardStep(holdTime, s, true, d, now) == Outcome(s, None, [])
  {
  }

  /** The frames fed to `update` one after another. */
  datatype Frame = Frame(allExtended: bool, fingerData: FingerData, now: real)

  /** The state after feeding the frames in order. */
  function Run(holdTime: real, s: KeyboardState, frames: seq<Frame>): KeyboardState
    decreases |frames|
  {
    if frames == [] then s
    else
      var f := frames[0];
      Run(holdTime, KeyboardStep(holdTime, s, f.allExtended, f.fingerData, f.now).state, frames[1..])
  }

  /** The timer invariant holds after any sequence of updates from a state that satisfies it. */
  lemma {:induction false} RunPreservesTimerInvariant(holdTime: real, s: KeyboardState, frames: seq<Frame>)
    requires TimerExcludesActive(s)
    ensures TimerExcludesActive(Run(holdTime, s, frames))
    decreases |frames|
  {
    if frames != [] {
      var f := frames[0];
      StepPreservesTimerInvariant(holdTime, s, f.allExtended, f.fingerData, f.now);
      RunPreservesTimerInvariant(holdTime, KeyboardStep(holdTime, s, f.allExtended, f.fingerData, f.now).state, frames[1..]);
    }
  }

  /**
   * Holding all fingers from a fresh mode at `start` (a non-zero time) and
   * again at `later` activates the mode exactly when `later - start >= holdTime`.
   */
  lemma HoldActivatesIff(holdTime: real, start: real, later: real, d: FingerData)
    requires start != 0.0
    ensures Run(holdTime, InitialKeyboardState, [Frame(true, d, start), Frame(true, d, later)]).isActive
      <==> later - start >= holdTime
  {
    var frames := [Frame(true, d, start), Frame(true, d, later)];
    var s1 := KeyboardState(false, Some(start));
    assert KeyboardStep(holdTime, InitialKeyboardState, true, d, start).state == s1;
    assert frames[1..] == [Frame(true, d, later)];
    assert Run(holdTime, InitialKeyboardState, frames) == Run(holdTime, s1, frames[1..]);
    assert frames[1..][1..] == [];
    assert Run(holdTime, s1, frames[1..]) == KeyboardStep(holdTime, s1, true, d, later).state;
    ActivationCompletesIff(holdTime, start, d, later);
  }

  /** What `get_status` reports, minus the platform name. */
  datatype KeyboardStatus = KeyboardStatus(
    isActive: bool,
    isActivating: bool,
    holdTime: real,
    activationProgress: Option<real>,
    remainingTime: Option<real>)

  /**
   * `get_status` at time `now`. Progress and remaining time are reported only
   * while a (truthy) timer runs; a zero hold time then divides by zero.
   */
  function Status(holdTime: real, s: KeyboardState, now: real): (r: Result<KeyboardStatus>)
    ensures r.Failure? <==> TimerTruthy(s.activationStartTime) && holdTime == 0.0
    ensures r.Failure? ==> r.error == "ZeroDivisionError"
    ensures r.Success? ==> r.value.isActive == s.isActive && r.value.holdTime == holdTime
    ensures r.Success? ==> (r.value.isActivating <==> s.activationStartTime.Some?)
    ensures r.Success? ==> (r.value.activationProgress.Some? <==> TimerTruthy(s.activationStartTime))
    ensures r.Success? ==> (r.value.remainingTime.Some? <==> TimerTruthy(s.activationStartTime))
    ensures r.Success? && r.value.activationProgress.Some? ==> r.value.activationProgress.value <= 1.0
    ensures r.Success? && r.value.remainingTime.Some? ==> 0.0 <= r.value.remainingTime.value
  {
    var base := KeyboardStatus(s.isActive, s.activationStartTime.Some?, holdTime, None, None);
    if TimerTruthy(s.activationStartTime) then
      var elapsed := now - s.activationStartTime.value;
      if holdTime == 0.0 then Failure("ZeroDivisionError")
      else
        Success(base.(activationProgress := Some(Min(1.0, elapsed / holdTime)),
                      remainingTime := Some(Max(0.0, holdTime - elapsed))))
    else Success(base)
  }

  lemma DivNonNegative(a: real, b: real)
    requires 0.0 <= a && 0.0 < b
    ensures 0.0 <= a / b
  {
  }

  /**
   * With a positive hold time and a clock that has not gone backwards since
   * the timer started, the reported progress lies in [0, 1].
   */
  lemma StatusProgressInUnitInterval(holdTime: real, s: KeyboardState, now: real)
    requires 0.0 < holdTime
    requires TimerTruthy(s.activationStartTime) && s.activationStartTime.value <= now
    ensures Status(holdTime, s, now).Success?
      && Status(holdTime, s, now).value.activationProgress.Some?
      && 0.0 <= Status(holdTime, s, now).value.activationProgress.value <= 1.0
  {
    DivNonNegative(now - s.activationStartTime.value, holdTime);
  }

  /**
   * The mode object. `feedbackLog` is what a feedback callback receives and
   * `keyLog` the keystrokes sent to the operating system.
   */
  class KeyboardMode {
    const holdTime: real
    const isMacos: bool
    var isActive: bool
    var activationStartTime: Option<real>
    var feedbackLog: seq<Feedback>
    ghost var keyLog: seq<KeyAction>

    function State(): KeyboardState
      reads this
    {
      KeyboardState(isActive, activationStartTime)
    }

    predicate Valid()
      reads this
    {
      TimerExcludesActive(State())
    }

    constructor (holdTime: real, isMacos: bool)
      ensures this.holdTime == holdTime && this.isMacos == isMacos
      ensures State() == InitialKeyboardState && Valid()
      ensures feedbackLog == [] && keyLog == []
    {
      this.holdTime := holdTime;
      this.isMacos := isMacos;
      isActive := false;
      activationStartTime := None;
      feedbackLog := [];
      keyLog := [];
    }

    method Update(allExtended: bool, fingerData: FingerData, now: real) returns (r: Option<KeyboardShortcut>)
      modifies this
      ensures var o := KeyboardStep(holdTime, old(State()), allExtended, fingerData, now);
        State() == o.state && r == o.shortcut && feedbackLog == old(feedbackLog) + o.events
      ensures keyLog == old(keyLog)
      ensures old(Valid()) ==> Valid()
    {
      ghost var s := State();
      r := None;
      if allExtended {
        if !isActive && activationStartTime.None? {
          activationStartTime := Some(now);
          feedbackLog := feedbackLog + [KeyboardActivating(holdTime)];
        } else if activationStartTime.Some? && activationStartTime.value != 0.0 && !isActive {
          var held := now - activationStartTime.value;
          var remaining := Max(0.0, holdTime - held);
          feedbackLog := feedbackLog + [KeyboardActivating(remaining)];
          if held >= holdTime {
            isActive := true;
            activationStartTime := None;
            feedbackLog := feedbackLog + [KeyboardActive];
          }
        }
      } else {
        if isActive {
          var shortcut := DetectShortcut(fingerData);
          if shortcut.Some? {
            Exit();
            r := shortcut;
          }
        } else {
          activationStartTime := None;
          feedbackLog := feedbackLog + [KeyboardInactive];
        }
      }
      if TimerExcludesActive(s) {
        StepPreservesTimerInvariant(holdTime, s, allExtended, fingerData, now);
      }
    }

    method ExecuteShortcut(shortcut: KeyboardShortcut)
      modifies this
      ensures State() == old(State())
      ensures keyLog == old(keyLog) + [ShortcutKeys(shortcut, isMacos)]
      ensures feedbackLog == old(feedbackLog) + [ShortcutExecuted(shortcut.Value())]
    {
      keyLog := keyLog + [ShortcutKeys(shortcut, isMacos)];
      feedbackLog := feedbackLog + [ShortcutExecuted(shortcut.Value())];
    }

    method Exit()
      modifies this
      ensures State() == ExitState() && Valid()
      ensures feedbackLog == old(feedbackLog) + [KeyboardInactive]
      ensures keyLog == old(keyLog)
    {
      isActive := false;
      activationStartTime := None;
      feedbackLog := feedbackLog + [KeyboardInactive];
    }

    method ForceExit()
      modifies this
      ensures State() == ExitState() && Valid()
      ensures feedbackLog == old(feedbackLog) + [KeyboardInactive]
      ensures keyLog == old(keyLog)
    {
      Exit();
    }
  }
}
