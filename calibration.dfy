/**
 * Four-corner screen calibration: a fixed list of target points, each of
 * which captures the camera-space fingertip position shown to it, a cursor
 * through the targets, and conversion of the finished calibration to and
 * from the record that is written to disk.
 *
 * The calibration is specified by functions on a `Calibration` value; the
 * `ScreenCalibrator` class holds the same data in fields and each of its
 * methods is proved to make the step the corresponding function describes.
 */
module ScreenCalibration {
  import opened Wrappers

  datatype CalibrationState = Waiting | ShowingTarget | Capturing | Complete | Cancelled

  /**
   * A target at normalised screen position (screenX, screenY). The two
   * camera coordinates are always assigned together, so they are kept as
   * one optional pair.
   */
  datatype CalibrationPoint = CalibrationPoint(
    screenX: real,
    screenY: real,
    name: string,
    camera: Option<(real, real)>,
    isCaptured: bool)
  {
    /** The captured flag agrees with the presence of camera coordinates. */
    predicate WellFormed() {
      isCaptured <==> camera.Some?
    }

    /** Records the camera coordinates seen for this target. */
    function Capture(cameraX: real, cameraY: real): (p: CalibrationPoint)
      ensures p.isCaptured && p.camera == Some((cameraX, cameraY))
      ensures p.WellFormed() && SameTarget(p, this)
    {
      this.(camera := Some((cameraX, cameraY)), isCaptured := true)
    }

    /** Forgets any captured coordinates. */
    function Reset(): (p: CalibrationPoint)
      ensures !p.isCaptured && p.camera.None?
      ensures p.WellFormed() && SameTarget(p, this)
    {
      this.(camera := None, isCaptured := false)
    }
  }

  /** Two points share name and screen position. */
  predicate SameTarget(p: CalibrationPoint, q: CalibrationPoint) {
    p.name == q.name && p.screenX == q.screenX && p.screenY == q.screenY
  }

  /** A freshly constructed point: not captured and without camera coordinates. */
  function NewPoint(screenX: real, screenY: real, name: string): (p: CalibrationPoint)
    ensures !p.isCaptured && p.camera.None? && p.WellFormed()
    ensures p.screenX == screenX && p.screenY == screenY && p.name == name
  {
    CalibrationPoint(screenX, screenY, name, None, false)
  }

  /** The serialised form of a point. */
  datatype PointRecord = PointRecord(
    name: string,
    screen: (real, real),
    camera: Option<(real, real)>,
    captured: bool)

  /** `to_dict`: the camera pair is written only for a captured point. */
  function ToRecord(p: CalibrationPoint): (r: PointRecord)
    ensures r.name == p.name && r.screen == (p.screenX, p.screenY) && r.captured == p.isCaptured
    ensures !p.isCaptured ==> r.camera.None?
    ensures p.WellFormed() ==> r.camera == p.camera
  {
    PointRecord(p.name, (p.screenX, p.screenY), if p.isCaptured then p.camera else None, p.isCaptured)
  }

  /** `from_dict`: the point is captured only when the record says so and carries a camera pair. */
  function FromRecord(r: PointRecord): (p: CalibrationPoint)
    ensures p.WellFormed()
    ensures p.name == r.name && (p.screenX, p.screenY) == r.screen
    ensures p.isCaptured <==> r.captured && r.camera.Some?
    ensures p.isCaptured ==> p.camera == r.camera
  {
    var p := NewPoint(r.screen.0, r.screen.1, r.name);
    if r.captured && r.camera.Some? then p.Capture(r.camera.value.0, r.camera.value.1) else p
  }

  /** Serialising a well-formed point and reading it back gives the same point. */
  lemma PointRoundTrip(p: CalibrationPoint)
    requires p.WellFormed()
    ensures FromRecord(ToRecord(p)) == p
  {
  }

  /** The four corner targets, inset 10% from the screen edges, clockwise from the top left. */
  function DefaultPoints(): seq<CalibrationPoint> {
    [NewPoint(0.1, 0.1, "Top Left"),
     NewPoint(0.9, 0.1, "Top Right"),
     NewPoint(0.9, 0.9, "Bottom Right"),
     NewPoint(0.1, 0.9, "Bottom Left")]
  }

  predicate AllUncaptured(points: seq<CalibrationPoint>) {
    forall i | 0 <= i < |points| :: !points[i].isCaptured && points[i].camera.None?
  }

  /** The calibrator's data: its targets, the cursor into them and the progress state. */
  datatype Calibration = Calibration(
    screenWidth: int,
    screenHeight: int,
    points: seq<CalibrationPoint>,
    currentPointIndex: int,
    state: CalibrationState,
    showInstructions: bool)

  /** A new calibrator: four uncaptured corner targets, the cursor on the first, waiting. */
  function InitialCalibration(screenWidth: int, screenHeight: int): (c: Calibration)
    ensures |c.points| == 4 && AllUncaptured(c.points)
    ensures c.currentPointIndex == 0 && c.state == Waiting
    ensures c.screenWidth == screenWidth && c.screenHeight == screenHeight
    ensures forall i, j | 0 <= i < j < |c.points| :: c.points[i].name != c.points[j].name
    ensures forall i | 0 <= i < |c.points| ::
      0.1 <= c.points[i].screenX <= 0.9 && 0.1 <= c.points[i].screenY <= 0.9
    ensures c.points == [NewPoint(0.1, 0.1, "Top Left"), NewPoint(0.9, 0.1, "Top Right"),
                         NewPoint(0.9, 0.9, "Bottom Right"), NewPoint(0.1, 0.9, "Bottom Left")]
    ensures c.showInstructions
  {
    Calibration(screenWidth, screenHeight, DefaultPoints(), 0, Waiting, true)
  }

  /** Every point with its captured data forgotten. */
  function ResetPoints(points: seq<CalibrationPoint>): (r: seq<CalibrationPoint>)
    ensures |r| == |points|
    ensures forall i | 0 <= i < |r| :: r[i] == points[i].Reset()
  {
    seq(|points|, i requires 0 <= i < |points| => points[i].Reset())
  }

  /** `start_calibration`: back to the first target, every point uncaptured, targets kept. */
  function StartStep(c: Calibration): (r: Calibration)
    ensures r.currentPointIndex == 0 && r.state == ShowingTarget && r.showInstructions
    ensures |r.points| == |c.points| && AllUncaptured(r.points)
    ensures forall i | 0 <= i < |r.points| :: SameTarget(r.points[i], c.points[i])
    ensures r.screenWidth == c.screenWidth && r.screenHeight == c.screenHeight
  {
    c.(currentPointIndex := 0, state := ShowingTarget, showInstructions := true,
       points := ResetPoints(c.points))
  }

  /** `get_current_target`: the point under the cursor, or None when the cursor is past the list. */
  function CurrentTarget(c: Calibration): (r: Option<CalibrationPoint>)
    ensures r.Some? <==> 0 <= c.currentPointIndex < |c.points|
    ensures r.Some? ==> r.value == c.points[c.currentPointIndex]
  {
    if 0 <= c.currentPointIndex < |c.points| then Some(c.points[c.currentPointIndex]) else None
  }

  /**
   * `capture_point`: captures the current target and advances the cursor,
   * completing after the last target; with no current target it refuses.
   */
  function CaptureStep(c: Calibration, fingerX: real, fingerY: real): (r: (Calibration, bool))
    ensures r.1 <==> CurrentTarget(c).Some?
    ensures !r.1 ==> r.0 == c
    ensures r.1 ==> r.0.currentPointIndex == c.currentPointIndex + 1
    ensures r.1 ==> (r.0.state == Complete <==> c.currentPointIndex + 1 >= |c.points|)
    ensures r.1 ==> r.0.state == Complete || r.0.state == ShowingTarget
    ensures r.1 ==> |r.0.points| == |c.points|
    ensures r.1 ==> r.0.points[c.currentPointIndex] == c.points[c.currentPointIndex].Capture(fingerX, fingerY)
    ensures forall i | 0 <= i < |c.points| && i != c.currentPointIndex :: r.0.points[i] == c.points[i]
    ensures r.0.screenWidth == c.screenWidth && r.0.screenHeight == c.screenHeight
    ensures r.0.showInstructions == c.showInstructions
  {
    match CurrentTarget(c)
    case None => (c, false)
    case Some(target) =>
      var index := c.currentPointIndex + 1;
      var points := c.points[c.currentPointIndex := target.Capture(fingerX, fingerY)];
      var state := if index >= |points| then Complete else ShowingTarget;
      (c.(points := points, currentPointIndex := index, state := state), true)
  }

  /** `is_complete`: a complete run is never also cancelled. */
  function IsComplete(c: Calibration): (b: bool)
    ensures b ==> c.state != Cancelled
  {
    c.state == Complete
  }

  /** `is_cancelled`: a cancelled run is never also complete. */
  function IsCancelled(c: Calibration): (b: bool)
    ensures b ==> c.state != Complete
  {
    c.state == Cancelled
  }

  /** `cancel`: only the state changes. */
  function CancelStep(c: Calibration): (r: Calibration)
    ensures IsCancelled(r) && !IsComplete(r)
    ensures r.points == c.points && r.currentPointIndex == c.currentPointIndex
    ensures r.screenWidth == c.screenWidth && r.screenHeight == c.screenHeight
    ensures r.showInstructions == c.showInstructions
  {
    c.(state := Cancelled)
  }

  /** `get_progress`: the fraction of targets passed, 0 for an empty list. */
  function Progress(c: Calibration): (p: real)
    ensures |c.points| == 0 ==> p == 0.0
    ensures 0 <= c.currentPointIndex <= |c.points| ==> 0.0 <= p <= 1.0
  {
    if |c.points| == 0 then 0.0 else c.currentPointIndex as real / |c.points| as real
  }

  lemma ProgressOfFour(c: Calibration)
    requires |c.points| == 4
    ensures Progress(c) == c.currentPointIndex as real / 4.0
  {
    assert |c.points| as real == 4.0;
  }

  /** Captures one finger position per element, in order. */
  function CaptureAll(c: Calibration, fingers: seq<(real, real)>): (r: Calibration)
    // captures never add, drop or move a target, nor change the screen
    ensures |r.points| == |c.points|
    ensures forall i | 0 <= i < |r.points| ::
      r.points[i].name == c.points[i].name && r.points[i].screenX == c.points[i].screenX
      && r.points[i].screenY == c.points[i].screenY
    ensures r.screenWidth == c.screenWidth && r.screenHeight == c.screenHeight
    decreases |fingers|
  {
    if fingers == [] then c
    else CaptureAll(CaptureStep(c, fingers[0].0, fingers[0].1).0, fingers[1..])
  }

  /**
   * Capturing k positions from a cursor with k targets left advances the
   * cursor by k; after at least one capture the calibration is complete
   * exactly when the cursor has reached the end.
   */
  lemma {:induction false} CaptureAllAdvances(c: Calibration, fingers: seq<(real, real)>)
    requires fingers != []
    requires 0 <= c.currentPointIndex
    requires c.currentPointIndex + |fingers| <= |c.points|
    ensures var r := CaptureAll(c, fingers);
      |r.points| == |c.points|
      && r.currentPointIndex == c.currentPointIndex + |fingers|
      && (r.state == Complete <==> r.currentPointIndex == |c.points|)
    decreases |fingers|
  {
    var c1 := CaptureStep(c, fingers[0].0, fingers[0].1).0;
    if |fingers| == 1 {
      assert fingers[1..] == [];
      assert CaptureAll(c, fingers) == c1;
    } else {
      CaptureAllAdvances(c1, fingers[1..]);
    }
  }

  /**
   * Capturing k positions from a cursor with k targets left stores the i-th
   * position in the i-th target after the cursor and touches no other point.
   */
  lemma {:induction false} CaptureAllStores(c: Calibration, fingers: seq<(real, real)>)
    requires 0 <= c.currentPointIndex
    requires c.currentPointIndex + |fingers| <= |c.points|
    ensures var r := CaptureAll(c, fingers);
      |r.points| == |c.points|
      && (forall i | 0 <= i < |fingers| ::
            r.points[c.currentPointIndex + i] == c.points[c.currentPointIndex + i].Capture(fingers[i].0, fingers[i].1))
      && (forall i | 0 <= i < |c.points| && !(c.currentPointIndex <= i < c.currentPointIndex + |fingers|) ::
            r.points[i] == c.points[i])
    decreases |fingers|
  {
    if fingers != [] {
      var c1 := CaptureStep(c, fingers[0].0, fingers[0].1).0;
      CaptureAllStores(c1, fingers[1..]);
      var r := CaptureAll(c1, fingers[1..]);
      assert CaptureAll(c, fingers) == r;
      forall i | 0 <= i < |fingers|
        ensures r.points[c.currentPointIndex + i] == c.points[c.currentPointIndex + i].Capture(fingers[i].0, fingers[i].1)
      {
        if i > 0 {
          assert fingers[1..][i - 1] == fingers[i];
          assert c1.currentPointIndex + (i - 1) == c.currentPointIndex + i;
        }
      }
    }
  }

  /**
   * Starting a four-point calibration and capturing k positions gives
   * progress k/4, and the calibration is complete exactly after four.
   */
  lemma CaptureProgress(c: Calibration, fingers: seq<(real, real)>)
    requires |c.points| == 4 && |fingers| <= 4
    ensures var r := CaptureAll(StartStep(c), fingers);
      Progress(r) == |fingers| as real / 4.0 && (IsComplete(r) <==> |fingers| == 4)
  {
    var s := StartStep(c);
    var r := CaptureAll(s, fingers);
    if fingers == [] {
      assert r == s;
    } else {
      CaptureAllAdvances(s, fingers);
    }
    assert |r.points| == 4 && r.currentPointIndex == |fingers|;
    ProgressOfFour(r);
  }

  /** The record written to disk. */
  datatype CalibrationRecord = CalibrationRecord(
    version: string,
    timestamp: real,
    screenResolution: Option<(int, int)>,
    points: Option<seq<PointRecord>>)

  function ToRecords(points: seq<CalibrationPoint>): (r: seq<PointRecord>)
    ensures |r| == |points| && forall i | 0 <= i < |r| :: r[i] == ToRecord(points[i])
  {
    seq(|points|, i requires 0 <= i < |points| => ToRecord(points[i]))
  }

  /** `save_calibration`'s record at time `now`; refused (None) unless complete. */
  function Save(c: Calibration, now: real): (r: Option<CalibrationRecord>)
    ensures r.Some? <==> IsComplete(c)
    ensures r.Some? ==> r.value.screenResolution == Some((c.screenWidth, c.screenHeight))
    ensures r.Some? ==> r.value.timestamp == now && r.value.points.Some?
    ensures r.Some? ==> |r.value.points.value| == |c.points|
    ensures r.Some? ==> forall i | 0 <= i < |c.points| :: r.value.points.value[i] == ToRecord(c.points[i])
  {
    if !IsComplete(c) then None
    else
      Some(CalibrationRecord("1.0", now, Some((c.screenWidth, c.screenHeight)), Some(ToRecords(c.points))))
  }

  /**
   * `load_calibration`: accepted only with exactly four point records; the
   * points are replaced, the resolution taken when present, the state set to
   * complete, and the cursor left where it was.
   */
  function Load(c: Calibration, data: CalibrationRecord): (r: (Calibration, bool))
    ensures r.1 <==> data.points.Some? && |data.points.value| == 4
    ensures !r.1 ==> r.0 == c
    ensures r.1 ==> IsComplete(r.0) && r.0.currentPointIndex == c.currentPointIndex
    ensures r.1 ==> |r.0.points| == 4
    ensures r.1 ==> forall i | 0 <= i < 4 :: r.0.points[i] == FromRecord(data.points.value[i])
    ensures r.1 ==> ((r.0.screenWidth, r.0.screenHeight)
      == if data.screenResolution.Some? then data.screenResolution.value else (c.screenWidth, c.screenHeight))
  {
    if data.points.None? || |data.points.value| != 4 then (c, false)
    else
      var records := data.points.value;
      var points := seq(|records|, i requires 0 <= i < |records| => FromRecord(records[i]));
      var size := if data.screenResolution.Some? then data.screenResolution.value
                  else (c.screenWidth, c.screenHeight);
      (c.(points := points, screenWidth := size.0, screenHeight := size.1, state := Complete), true)
  }

  /**
   * Saving a complete four-point calibration and loading the record into any
   * calibrator reproduces its points (names, screen and camera coordinates,
   * captured flags) and its resolution, and leaves the loader complete.
   */
  lemma SaveThenLoad(c: Calibration, now: real, other: Calibration)
    requires IsComplete(c) && |c.points| == 4
    requires forall i | 0 <= i < 4 :: c.points[i].WellFormed()
    ensures Save(c, now).Some?
    ensures var r := Load(other, Save(c, now).value);
      r.1 && r.0.points == c.points && IsComplete(r.0)
      && r.0.screenWidth == c.screenWidth && r.0.screenHeight == c.screenHeight
  {
    var rec := Save(c, now).value;
    var r := Load(other, rec);
    forall i | 0 <= i < 4 ensures r.0.points[i] == c.points[i] {
      PointRoundTrip(c.points[i]);
    }
  }

  /** A full calibration run leaves every point well formed, so the round trip applies. */
  lemma CaptureAllWellFormed(c: Calibration, fingers: seq<(real, real)>)
    requires forall i | 0 <= i < |c.points| :: c.points[i].WellFormed()
    ensures var r := CaptureAll(c, fingers);
      forall i | 0 <= i < |r.points| :: r.points[i].WellFormed()
    decreases |fingers|
  {
    if fingers != [] {
      CaptureAllWellFormed(CaptureStep(c, fingers[0].0, fingers[0].1).0, fingers[1..]);
    }
  }

  /** The calibrator object; `Snapshot` gives its data as a `Calibration` value. */
  class ScreenCalibrator {
    var screenWidth: int
    var screenHeight: int
    var points: seq<CalibrationPoint>
    var currentPointIndex: int
    var state: CalibrationState
    var showInstructions: bool

    function Snapshot(): Calibration
      reads this
    {
      Calibration(screenWidth, screenHeight, points, currentPointIndex, state, showInstructions)
    }

    constructor (screenWidth: int, screenHeight: int)
      ensures Snapshot() == InitialCalibration(screenWidth, screenHeight)
    {
      this.screenWidth := screenWidth;
      this.screenHeight := screenHeight;
      points := DefaultPoints();
      currentPointIndex := 0;
      state := Waiting;
      showInstructions := true;
    }

    method StartCalibration()
      modifies this
      ensures Snapshot() == StartStep(old(Snapshot()))
    {
      currentPointIndex := 0;
      state := ShowingTarget;
      showInstructions := true;
      var i := 0;
      while i < |points|
        invariant 0 <= i <= |points| == |old(points)|
        invariant forall j | 0 <= j < i :: points[j] == old(points)[j].Reset()
        invariant forall j | i <= j < |points| :: points[j] == old(points)[j]
        invariant screenWidth == old(screenWidth) && screenHeight == old(screenHeight)
        invariant currentPointIndex == 0 && state == ShowingTarget && showInstructions
      {
        points := points[i := points[i].Reset()];
        i := i + 1;
      }
      assert points == ResetPoints(old(points));
    }

    method GetCurrentTarget() returns (r: Option<CalibrationPoint>)
      ensures r == CurrentTarget(Snapshot())
    {
      if 0 <= currentPointIndex < |points| {
        r := Some(points[currentPointIndex]);
      } else {
        r := None;
      }
    }

    method CapturePoint(fingerX: real, fingerY: real) returns (ok: bool)
      modifies this
      ensures (Snapshot(), ok) == CaptureStep(old(Snapshot()), fingerX, fingerY)
    {
      var target := GetCurrentTarget();
      if target.None? {
        return false;
      }
      points := points[currentPointIndex := target.value.Capture(fingerX, fingerY)];
      currentPointIndex := currentPointIndex + 1;
      if currentPointIndex >= |points| {
        state := Complete;
      } else {
        state := ShowingTarget;
      }
      ok := true;
    }

    method Cancel()
      modifies this
      ensures Snapshot() == CancelStep(old(Snapshot()))
    {
      state := Cancelled;
    }

    method SaveCalibration(now: real) returns (r: Option<CalibrationRecord>)
      ensures r == Save(Snapshot(), now)
    {
      if state != Complete {
        return None;
      }
      r := Some(CalibrationRecord("1.0", now, Some((screenWidth, screenHeight)), Some(ToRecords(points))));
    }

    method LoadCalibration(data: CalibrationRecord) returns (ok: bool)
      modifies this
      ensures (Snapshot(), ok) == Load(old(Snapshot()), data)
    {
      if data.points.None? || |data.points.value| != 4 {
        return false;
      }
      var records := data.points.value;
      points := seq(|records|, i requires 0 <= i < |records| => FromRecord(records[i]));
      if data.screenResolution.Some? {
        screenWidth, screenHeight := data.screenResolution.value.0, data.screenResolution.value.1;
      }
      state := Complete;
      ok := true;
    }
  }
}
