/**
 * Hand skeleton value types: the 21 normalised landmarks of one hand, the
 * quantities derived from them (hand size, palm centre, pixel coordinates),
 * and the 0–2 hands found in one frame, looked up by handedness.
 * The detector that produces them is not part of this model.
 */
module Hands {
  import opened Wrappers
  import opened Numeric

  const LandmarkCount: nat := 21

  // Anatomical landmark indices.
  const Wrist: nat := 0
  const ThumbIp: nat := 3
  const ThumbTip: nat := 4
  const IndexMcp: nat := 5
  const IndexPip: nat := 6
  const IndexTip: nat := 8
  const MiddleMcp: nat := 9
  const MiddlePip: nat := 10
  const MiddleTip: nat := 12
  const RingMcp: nat := 13
  const RingPip: nat := 14
  const RingTip: nat := 16
  const PinkyMcp: nat := 17
  const PinkyPip: nat := 18
  const PinkyTip: nat := 20

  /** The wrist and the four finger MCP joints, averaged for the palm centre. */
  const PalmIndices: seq<nat> := [Wrist, IndexMcp, MiddleMcp, RingMcp, PinkyMcp]

  datatype HandLandmark = HandLandmark(x: real, y: real, z: real)

  datatype HandLandmarks = HandLandmarks(landmarks: seq<HandLandmark>, handedness: string)

  /** A hand skeleton always holds exactly 21 landmarks. */
  type Hand = h: HandLandmarks | |h.landmarks| == LandmarkCount
    witness HandLandmarks(seq(LandmarkCount, _ => HandLandmark(0.0, 0.0, 0.0)), "Right")

  /** The constructor: any other number of landmarks raises ValueError. */
  function NewHandLandmarks(landmarks: seq<HandLandmark>, handedness: string): (r: Result<Hand>)
    ensures r.Success? <==> |landmarks| == LandmarkCount
    ensures r.Success? ==> r.value.landmarks == landmarks && r.value.handedness == handedness
    ensures r.Failure? ==> r.error == "ValueError"
  {
    if |landmarks| != LandmarkCount then Failure("ValueError")
    else Success(HandLandmarks(landmarks, handedness))
  }

  /** Bounds-checked access: indices outside 0..20 raise IndexError. */
  function GetLandmark(h: Hand, index: int): (r: Result<HandLandmark>)
    ensures r.Success? <==> 0 <= index < LandmarkCount
    ensures r.Success? ==> r.value == h.landmarks[index]
    ensures r.Failure? ==> r.error == "IndexError"
  {
    if 0 <= index < |h.landmarks| then Success(h.landmarks[index]) else Failure("IndexError")
  }

  /** One `(int(x * w), int(y * h))` pair per landmark. */
  function ToPixelCoordinates(h: Hand, frameWidth: int, frameHeight: int): (r: seq<(int, int)>)
    ensures |r| == LandmarkCount
    ensures forall i :: 0 <= i < |r| ==>
      r[i] == (Trunc(h.landmarks[i].x * frameWidth as real), Trunc(h.landmarks[i].y * frameHeight as real))
    ensures forall i :: 0 <= i < |r| && 0 <= frameWidth && 0.0 <= h.landmarks[i].x <= 1.0 ==>
      0 <= r[i].0 <= frameWidth
    ensures forall i :: 0 <= i < |r| && 0 <= frameHeight && 0.0 <= h.landmarks[i].y <= 1.0 ==>
      0 <= r[i].1 <= frameHeight
  {
    seq(|h.landmarks|, i requires 0 <= i < |h.landmarks| =>
      PixelOf(h.landmarks[i], frameWidth, frameHeight))
  }

  function PixelOf(lm: HandLandmark, frameWidth: int, frameHeight: int): (p: (int, int))
    ensures 0 <= frameWidth && 0.0 <= lm.x <= 1.0 ==> 0 <= p.0 <= frameWidth
    ensures 0 <= frameHeight && 0.0 <= lm.y <= 1.0 ==> 0 <= p.1 <= frameHeight
  {
    UnitScaleTrunc(lm.x, frameWidth);
    UnitScaleTrunc(lm.y, frameHeight);
    (Trunc(lm.x * frameWidth as real), Trunc(lm.y * frameHeight as real))
  }

  /**
   * The square of the hand size, the wrist-to-middle-MCP distance in the
   * image plane. The hand size itself is its square root (see IsHandSize).
   */
  function HandSizeSquared(h: Hand): (s: real)
    ensures 0.0 <= s
  {
    SquaredDistance(h.landmarks[Wrist], h.landmarks[MiddleMcp])
  }

  /** `r` is the hand size of `h`, the non-negative root of HandSizeSquared. */
  ghost predicate IsHandSize(h: Hand, r: real) {
    IsRoot(r, HandSizeSquared(h))
  }

  lemma UnitScaleTrunc(x: real, w: int)
    ensures 0 <= w && 0.0 <= x <= 1.0 ==> 0 <= Trunc(x * w as real) <= w
  {
    if 0 <= w && 0.0 <= x <= 1.0 {
      MulNonNegative(x, w as real);
      MulNonNegative(1.0 - x, w as real);
    }
  }

  /** Squared Euclidean distance of two landmarks in x and y; the distance is its square root. */
  function SquaredDistance(p: HandLandmark, q: HandLandmark): (d: real)
    ensures 0.0 <= d
  {
    var dx := q.x - p.x;
    var dy := q.y - p.y;
    SumOfSquares(dx, dy);
    dx * dx + dy * dy
  }

  function Sum(xs: seq<real>): real {
    if xs == [] then 0.0 else Sum(xs[..|xs| - 1]) + xs[|xs| - 1]
  }

  function SeqMin(xs: seq<real>): real
    requires xs != []
  {
    if |xs| == 1 then xs[0] else Min(SeqMin(xs[..|xs| - 1]), xs[|xs| - 1])
  }

  function SeqMax(xs: seq<real>): real
    requires xs != []
  {
    if |xs| == 1 then xs[0] else Max(SeqMax(xs[..|xs| - 1]), xs[|xs| - 1])
  }

  /** The sum of a non-empty sequence is at least |xs| times its least element. */
  lemma {:induction false} SumAbove(xs: seq<real>)
    requires xs != []
    ensures |xs| as real * SeqMin(xs) <= Sum(xs)
  {
    if |xs| > 1 {
      var init, last := xs[..|xs| - 1], xs[|xs| - 1];
      SumAbove(init);
      var n := |init| as real;
      var lo, loInit := SeqMin(xs), SeqMin(init);
      assert lo == Min(loInit, last);
      MulNonNegative(n, loInit - lo);
      assert n * lo <= n * loInit;
      assert (n + 1.0) * lo == n * lo + lo;
      assert |xs| as real == n + 1.0;
      assert Sum(xs) == Sum(init) + last;
    }
  }

  /** The sum of a non-empty sequence is at most |xs| times its greatest element. */
  lemma {:induction false} SumBelow(xs: seq<real>)
    requires xs != []
    ensures Sum(xs) <= |xs| as real * SeqMax(xs)
  {
    if |xs| > 1 {
      var init, last := xs[..|xs| - 1], xs[|xs| - 1];
      SumBelow(init);
      var n := |init| as real;
      var hi, hiInit := SeqMax(xs), SeqMax(init);
      assert hi == Max(hiInit, last);
      MulNonNegative(n, hi - hiInit);
      assert n * hiInit <= n * hi;
      assert (n + 1.0) * hi == n * hi + hi;
      assert |xs| as real == n + 1.0;
      assert Sum(xs) == Sum(init) + last;
    }
  }

  function Mean(xs: seq<real>): (m: real)
    requires xs != []
    ensures SeqMin(xs) <= m <= SeqMax(xs)
  {
    SumAbove(xs);
    SumBelow(xs);
    Sum(xs) / |xs| as real
  }

  function PalmXs(h: Hand): seq<real> {
    seq(|PalmIndices|, i requires 0 <= i < |PalmIndices| => h.landmarks[PalmIndices[i]].x)
  }

  function PalmYs(h: Hand): seq<real> {
    seq(|PalmIndices|, i requires 0 <= i < |PalmIndices| => h.landmarks[PalmIndices[i]].y)
  }

  /** The mean of the wrist and the four MCP joints; it lies inside their bounding box. */
  function PalmCenter(h: Hand): (c: (real, real))
    ensures SeqMin(PalmXs(h)) <= c.0 <= SeqMax(PalmXs(h))
    ensures SeqMin(PalmYs(h)) <= c.1 <= SeqMax(PalmYs(h))
    ensures 5.0 * c.0 == Sum(PalmXs(h)) && 5.0 * c.1 == Sum(PalmYs(h))
  {
    (Mean(PalmXs(h)), Mean(PalmYs(h)))
  }

  /** The hands found in one frame (0, 1 or 2 of them). */
  datatype HandTrackingResult = HandTrackingResult(hands: seq<Hand>) {

    /** `count`: the number of hands, zero exactly when none was found. */
    function Count(): (n: nat)
      ensures n == 0 <==> hands == []
    {
      |hands|
    }

    /** The first hand, or None when no hand was found. */
    function Dominant(): (r: Option<Hand>)
      ensures r.Some? <==> Count() > 0
      ensures r.Some? ==> r.value == hands[0]
    {
      if |hands| > 0 then Some(hands[0]) else None
    }

    /** The first hand whose handedness matches, or None when none does. */
    function GetHand(handedness: string): (r: Option<Hand>)
      ensures r.None? <==> forall h | h in hands :: h.handedness != handedness
      ensures r.Some? ==> exists i | 0 <= i < |hands| ::
        hands[i] == r.value && r.value.handedness == handedness
        && forall j | 0 <= j < i :: hands[j].handedness != handedness
    {
      var i := FirstWithHandedness(hands, handedness);
      if i < |hands| then Some(hands[i]) else None
    }
  }

  /** The index of the first hand with the given handedness, or |hands| when there is none. */
  function FirstWithHandedness(hands: seq<Hand>, handedness: string): (i: nat)
    ensures i <= |hands|
    ensures forall j | 0 <= j < i :: hands[j].handedness != handedness
    ensures i < |hands| ==> hands[i].handedness == handedness
  {
    if hands == [] then 0
    else if hands[0].handedness == handedness then 0
    else 1 + FirstWithHandedness(hands[1..], handedness)
  }
}
