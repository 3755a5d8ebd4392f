/** The virtual touchsticks of NNPPlayerController.cpp as values: how a touch
    is routed to a stick (SetTouchstick), how one stick latches its centre and
    resets (the state machine inside SetTouchstick), and the scaled direction
    GetTouchstick reads from a stick. The player controller's methods are
    specified by these functions. */
module NNPTouch {
  import opened NNPTypes

  /** TOUCH_STICK_RADIUS: the capture radius every stick gets at initialisation. */
  const TOUCH_STICK_RADIUS: real := 100.0

  /** A released stick: latch re-armed, centre and position at the origin. */
  function Neutral(radius: real): (s: Touchstick)
    ensures s.FirstTouch && s.Radius == radius
    ensures s.Center == ZeroVector && s.StickPos == ZeroVector
  {
    Touchstick(true, radius, ZeroVector, ZeroVector)
  }

  /** The state InitializeHardwareController gives both sticks. */
  const InitialTouchstick: Touchstick := Neutral(TOUCH_STICK_RADIUS)

  function Sub(a: Vector2D, b: Vector2D): Vector2D
  {
    Vector2D(a.X - b.X, a.Y - b.Y)
  }

  function Scale(v: Vector2D, k: real): Vector2D
  {
    Vector2D(v.X * k, v.Y * k)
  }

  /** What every use of FVector2D::Size relies on: d is a non-negative real
      that is zero exactly for the zero vector. */
  predicate IsLength(v: Vector2D, d: real)
  {
    d >= 0.0 && (d == 0.0 <==> v == ZeroVector)
  }

  /** d is the Euclidean length of v: its square is v's squared length. Kept
      apart from IsLength because the product makes every proof that carries
      it nonlinear; only the unit-length facts need it. */
  predicate IsEuclidean(v: Vector2D, d: real)
  {
    d * d == SqSize(v)
  }

  /** The squared length of v. */
  function SqSize(v: Vector2D): real
  {
    v.X * v.X + v.Y * v.Y
  }

  /** The displacement of the live touch from the latched centre. */
  function Direction(s: Touchstick): Vector2D
  {
    Sub(s.StickPos, s.Center)
  }

  // ---------------------------------------------------------------- routing

  /** Which stick a touch at (x, y) drives in a viewport of the given size:
      none below the middle line (y greater than half the height), otherwise
      the left stick on the left half and the right stick on the rest. */
  function Route(x: real, y: real, viewportW: real, viewportH: real): (r: Option<TouchstickId>)
    ensures r.None? <==> y > viewportH * 0.5
    ensures r == Some(LTouchstick) <==> y <= viewportH * 0.5 && x < viewportW * 0.5
    ensures r == Some(RTouchstick) <==> y <= viewportH * 0.5 && x >= viewportW * 0.5
  {
    if y > viewportH * 0.5 then None
    else if x < viewportW * 0.5 then Some(LTouchstick)
    else Some(RTouchstick)
  }

  // ------------------------------------------------------- one stick's latch

  /** One update of a routed stick. A press latches the centre only when the
      first-touch latch is armed, disarms it, and always moves the live
      position to the touch; a release resets the stick to neutral. The radius
      is never touched. */
  function Latch(s: Touchstick, x: real, y: real, pressed: bool): (r: Touchstick)
    ensures r.Radius == s.Radius
    ensures pressed ==> !r.FirstTouch && r.StickPos == Vector2D(x, y)
    ensures pressed ==> r.Center == if s.FirstTouch then Vector2D(x, y) else s.Center
    ensures !pressed ==> r == Neutral(s.Radius)
  {
    if pressed then
      var latched := if s.FirstTouch then s.(FirstTouch := false, Center := Vector2D(x, y)) else s;
      latched.(StickPos := Vector2D(x, y))
    else
      s.(FirstTouch := true, Center := ZeroVector, StickPos := ZeroVector)
  }

  /** A stick held down while the touch visits the points of path in order. */
  function Hold(s: Touchstick, path: seq<Vector2D>): Touchstick
    decreases |path|
  {
    if path == [] then s else Hold(Latch(s, path[0].X, path[0].Y, true), path[1..])
  }

  /** Centre capture happens once per stroke: after a held path the centre is
      the first point of the path if the latch was armed (else the centre it
      already had), the live position is the last point, and the latch is
      disarmed. */
  lemma {:induction false} HoldLatchesCenterOnce(s: Touchstick, path: seq<Vector2D>)
    requires path != []
    ensures Hold(s, path).Center == if s.FirstTouch then path[0] else s.Center
    ensures Hold(s, path).StickPos == path[|path| - 1]
    ensures !Hold(s, path).FirstTouch && Hold(s, path).Radius == s.Radius
    decreases |path|
  {
    var next := Latch(s, path[0].X, path[0].Y, true);
    if |path| > 1 {
      HoldLatchesCenterOnce(next, path[1..]);
    }
  }

  /** A release between two strokes forgets the first: whatever was held
      before, the second stroke's centre is its own first point. */
  lemma {:induction false} ReleaseRearmsLatch(s: Touchstick, first: seq<Vector2D>, x: real, y: real, second: seq<Vector2D>)
    requires second != []
    ensures Latch(Hold(s, first), x, y, false) == Neutral(s.Radius)
    ensures Hold(Latch(Hold(s, first), x, y, false), second).Center == second[0]
    ensures Hold(Latch(Hold(s, first), x, y, false), second).StickPos == second[|second| - 1]
  {
    HoldRadius(s, first);
    HoldLatchesCenterOnce(Latch(Hold(s, first), x, y, false), second);
  }

  lemma {:induction false} HoldRadius(s: Touchstick, path: seq<Vector2D>)
    ensures Hold(s, path).Radius == s.Radius
    decreases |path|
  {
    if path != [] {
      HoldRadius(Latch(s, path[0].X, path[0].Y, true), path[1..]);
    }
  }

  // ------------------------------------------------------- the routed update

  /** SetTouchstick on the pair of sticks: the routed stick takes one Latch
      step, the other stick and a discarded touch change nothing. */
  function ApplyTouch(sticks: seq<Touchstick>, x: real, y: real, pressed: bool, viewportW: real, viewportH: real): (r: seq<Touchstick>)
    requires |sticks| == MAX_TOUCH_STICKS
    ensures |r| == MAX_TOUCH_STICKS
    ensures match Route(x, y, viewportW, viewportH)
            case None => r == sticks
            case Some(t) =>
              && r[TouchstickIndex(t)] == Latch(sticks[TouchstickIndex(t)], x, y, pressed)
              && r[TouchstickIndex(Other(t))] == sticks[TouchstickIndex(Other(t))]
  {
    match Route(x, y, viewportW, viewportH)
    case None => sticks
    case Some(t) =>
      var i := TouchstickIndex(t);
      sticks[i := Latch(sticks[i], x, y, pressed)]
  }

  /** A release is routed like any other touch: lifted anywhere but the upper
      left quarter, it leaves the left stick as it was, even if held. */
  lemma ReleaseRoutedAwayKeepsLeftStick(sticks: seq<Touchstick>, x: real, y: real, viewportW: real, viewportH: real)
    requires |sticks| == MAX_TOUCH_STICKS
    requires y > viewportH * 0.5 || x >= viewportW * 0.5
    ensures ApplyTouch(sticks, x, y, false, viewportW, viewportH)[TouchstickIndex(LTouchstick)] == sticks[TouchstickIndex(LTouchstick)]
  {
  }

  /** Successive touches, all held down, fed to SetTouchstick in order. */
  function TouchPath(sticks: seq<Touchstick>, path: seq<Vector2D>, viewportW: real, viewportH: real): (r: seq<Touchstick>)
    requires |sticks| == MAX_TOUCH_STICKS
    ensures |r| == MAX_TOUCH_STICKS
    decreases |path|
  {
    if path == [] then sticks
    else TouchPath(ApplyTouch(sticks, path[0].X, path[0].Y, true, viewportW, viewportH), path[1..], viewportW, viewportH)
  }

  /** A stroke whose every point is routed to stick t drives t exactly as a
      held path does and leaves the other stick alone; so the centre t
      latches is the stroke's first point (if t was armed) and its position
      the last. */
  lemma {:induction false} TouchPathHoldsRoutedStick(sticks: seq<Touchstick>, path: seq<Vector2D>, viewportW: real, viewportH: real, t: TouchstickId)
    requires |sticks| == MAX_TOUCH_STICKS
    requires forall i :: 0 <= i < |path| ==> Route(path[i].X, path[i].Y, viewportW, viewportH) == Some(t)
    ensures TouchPath(sticks, path, viewportW, viewportH)[TouchstickIndex(t)] == Hold(sticks[TouchstickIndex(t)], path)
    ensures TouchPath(sticks, path, viewportW, viewportH)[TouchstickIndex(Other(t))] == sticks[TouchstickIndex(Other(t))]
    ensures path != [] ==>
              && TouchPath(sticks, path, viewportW, viewportH)[TouchstickIndex(t)].Center
                 == (if sticks[TouchstickIndex(t)].FirstTouch then path[0] else sticks[TouchstickIndex(t)].Center)
              && TouchPath(sticks, path, viewportW, viewportH)[TouchstickIndex(t)].StickPos == path[|path| - 1]
    decreases |path|
  {
    if path != [] {
      var next := ApplyTouch(sticks, path[0].X, path[0].Y, true, viewportW, viewportH);
      assert Route(path[0].X, path[0].Y, viewportW, viewportH) == Some(t);
      TouchPathHoldsRoutedStick(next, path[1..], viewportW, viewportH, t);
      HoldLatchesCenterOnce(sticks[TouchstickIndex(t)], path);
    }
  }

  // ------------------------------------------------------------- the reading

  /** The magnitude factor of GetTouchstick: distance over the radius, but
      exactly 1 once the distance reaches the radius. */
  function Magnitude(distance: real, radius: real): (k: real)
    requires distance >= 0.0
    ensures 0.0 <= k <= 1.0
    ensures distance >= radius ==> k == 1.0
    ensures distance < radius ==> k * radius == distance
    ensures k == 0.0 <==> distance == 0.0 && radius > 0.0
  {
    if distance >= radius then 1.0 else distance / radius
  }

  /** GetSafeNormal: v divided by its length, or the zero vector for a zero v. */
  function SafeNormal(v: Vector2D, size: real): (n: Vector2D)
    requires IsLength(v, size)
    ensures v == ZeroVector ==> n == ZeroVector
    ensures v != ZeroVector ==> Scale(n, size) == v
  {
    if size == 0.0 then ZeroVector else Scale(v, 1.0 / size)
  }

  /** GetTouchstick on one stick: the displacement of the touch from the
      centre, normalised and scaled by Magnitude. While the touch is inside
      the radius the reading is the displacement divided by the radius;
      from the radius outwards it is the displacement divided by its own
      length (the unit direction); with the touch on the centre it is the
      zero vector. distance is the length of Direction(s). */
  function StickOutput(s: Touchstick, distance: real): (r: Vector2D)
    requires IsLength(Direction(s), distance)
    ensures s.StickPos == s.Center ==> r == ZeroVector
    ensures 0.0 < distance < s.Radius ==> r == Scale(Direction(s), 1.0 / s.Radius)
    ensures 0.0 < distance && s.Radius <= distance ==> r == Scale(Direction(s), 1.0 / distance)
  {
    Scale(SafeNormal(Direction(s), distance), Magnitude(distance, s.Radius))
  }

  /** A neutral stick has a zero displacement and reads zero. */
  lemma NeutralReadsZero(radius: real)
    ensures IsLength(Direction(Neutral(radius)), 0.0)
    ensures StickOutput(Neutral(radius), 0.0) == ZeroVector
  {
    assert Direction(Neutral(radius)) == ZeroVector;
  }

  /** The reading's length is the Magnitude factor: the unit direction scaled
      by min(distance / radius, 1). So every reading lies in the unit disc, and
      from the radius outwards it has length exactly 1. */
  lemma {:induction false} StickOutputLength(s: Touchstick, distance: real)
    requires IsLength(Direction(s), distance) && IsEuclidean(Direction(s), distance)
    requires s.Radius > 0.0
    ensures SqSize(StickOutput(s, distance)) == Magnitude(distance, s.Radius) * Magnitude(distance, s.Radius)
    ensures SqSize(StickOutput(s, distance)) <= 1.0
    ensures distance >= s.Radius ==> SqSize(StickOutput(s, distance)) == 1.0
  {
    var k := Magnitude(distance, s.Radius);
    var r := StickOutput(s, distance);
    assert r == Scale(SafeNormal(Direction(s), distance), k);
    ScaledNormalSqSize(Direction(s), distance, k);
    if distance == 0.0 {
      ZeroSquare(k);
    }
    assert SqSize(r) == k * k;
    SquareAtMostOne(k);
  }

  /** The safe normal of v scaled by k has squared length k^2, or 0 for a zero v. */
  lemma ScaledNormalSqSize(v: Vector2D, d: real, k: real)
    requires IsLength(v, d) && IsEuclidean(v, d)
    ensures SqSize(Scale(SafeNormal(v, d), k)) == if d == 0.0 then 0.0 else k * k
  {
    var n := SafeNormal(v, d);
    if d == 0.0 {
      assert Scale(n, k) == ZeroVector;
    } else {
      UnitNormal(v, d);
      ScaledUnit(n, k);
    }
  }

  /** A non-zero vector divided by its length has squared length 1. */
  lemma UnitNormal(v: Vector2D, d: real)
    requires IsLength(v, d) && IsEuclidean(v, d) && d > 0.0
    ensures SqSize(Scale(v, 1.0 / d)) == 1.0
  {
    var inv := 1.0 / d;
    assert SqSize(Scale(v, inv)) == SqSize(v) * (inv * inv);
    assert (d * d) * (inv * inv) == (d * inv) * (d * inv);
    assert d * inv == 1.0;
  }

  /** A vector of length 1 scaled by k has squared length k^2. */
  lemma ScaledUnit(n: Vector2D, k: real)
    requires SqSize(n) == 1.0
    ensures SqSize(Scale(n, k)) == k * k
  {
    assert SqSize(Scale(n, k)) == (n.X * n.X + n.Y * n.Y) * (k * k);
  }

  lemma ZeroSquare(k: real)
    requires k == 0.0
    ensures k * k == 0.0
  {
  }

  lemma SquareAtMostOne(k: real)
    requires 0.0 <= k <= 1.0
    ensures k * k <= 1.0
  {
    MulAtMostFirst(k, k);
  }

  /** A non-negative a times a factor of at most 1 is at most a. */
  lemma MulAtMostFirst(a: real, b: real)
    requires a >= 0.0 && b <= 1.0
    ensures a * b <= a
  {
    MulNonNegative(a, 1.0 - b);
    assert a * (1.0 - b) == a - a * b;
  }

  lemma MulNonNegative(x: real, y: real)
    requires x >= 0.0 && y >= 0.0
    ensures x * y >= 0.0
  {
  }

  // --------------------------------------------------------------- scenarios

  /** A touch at (200, 700) in a 1000 x 800 viewport lies below the middle
      line and is discarded: the sticks keep their initial state. */
  lemma LowerHalfTouchDiscarded()
    ensures ApplyTouch([InitialTouchstick, InitialTouchstick], 200.0, 700.0, true, 1000.0, 800.0)
         == [InitialTouchstick, InitialTouchstick]
  {
  }

  /** Touch-down at (200, 300) in a 1000 x 800 viewport, a move to (240, 300)
      and a release: the left stick latches (200, 300) and disarms; the right
      stick is never touched. */
  lemma UpperLeftStroke()
    ensures ApplyTouch([InitialTouchstick, InitialTouchstick], 200.0, 300.0, true, 1000.0, 800.0)
         == [HeldAt(200.0), InitialTouchstick]
    ensures ApplyTouch([HeldAt(200.0), InitialTouchstick], 240.0, 300.0, true, 1000.0, 800.0)
         == [HeldAt(240.0), InitialTouchstick]
    ensures ApplyTouch([HeldAt(240.0), InitialTouchstick], 240.0, 300.0, false, 1000.0, 800.0)
         == [InitialTouchstick, InitialTouchstick]
  {
    assert Route(200.0, 300.0, 1000.0, 800.0) == Some(LTouchstick);
    assert Route(240.0, 300.0, 1000.0, 800.0) == Some(LTouchstick);
  }

  /** The left stick of UpperLeftStroke, centre (200, 300), touch at (x, 300). */
  function HeldAt(x: real): Touchstick
  {
    Touchstick(false, TOUCH_STICK_RADIUS, Vector2D(200.0, 300.0), Vector2D(x, 300.0))
  }

  /** The readings along UpperLeftStroke: 40 of a radius of 100 along +X reads
      (0.4, 0) while held, and the released stick reads zero. */
  lemma UpperLeftReadings()
    ensures IsLength(Direction(HeldAt(240.0)), 40.0)
    ensures StickOutput(HeldAt(240.0), 40.0) == Vector2D(0.4, 0.0)
    ensures StickOutput(InitialTouchstick, 0.0) == ZeroVector
  {
    assert Direction(HeldAt(240.0)) == Vector2D(40.0, 0.0);
    assert Scale(Vector2D(40.0, 0.0), 1.0 / 100.0) == Vector2D(0.4, 0.0);
  }
}
