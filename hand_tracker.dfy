/** The hand-gesture pipeline: finger-openness vector, gesture decision table and
    the per-frame aggregation of landmarks into a control vector.
    The camera and the landmark detector are replaced by their output: a sequence of
    hands, each 21 landmarks in normalised camera coordinates (y grows downward).
    The square root used by `normalize` is a parameter that must be exact. */
module HandTracker {

  import opened RealArith

  /** One landmark of a hand. */
  datatype Point = Point(x: real, y: real)

  /** A two-component vector (the source's two-element list). */
  datatype Vec = Vec(x: real, y: real)

  const LANDMARK_COUNT: nat := 21
  const WRIST: nat := 0
  const THUMB_BASE: nat := 2
  const THUMB_TIP: nat := 4
  /** Fingertip landmarks in the order thumb, index, middle, ring, pinky. */
  const TIP_IDS: seq<nat> := [4, 8, 12, 16, 20]
  const THUMB_THRESHOLD: real := 0.65
  /** The value recorded for a folded thumb. */
  const THUMB_CLOSED: real := -1.0
  /** The control-vector anchor, never moved (the recentering assignment is disabled). */
  const HAND_CENTER: seq<real> := [0.5, 0.0]
  /** The control vector returned when no landmark was counted. */
  const NO_HAND: seq<real> := [0.0, 1.0]

  /** A hand as reported by the detector: exactly 21 landmarks. */
  type Hand = h: seq<Point> | |h| == LANDMARK_COUNT witness seq(21, i => Point(0.0, 0.0))

  /** `sqrt` is an exact square root on the non-negative reals (the role of np.sqrt). */
  ghost predicate IsSqrt(sqrt: real -> real) {
    forall x: real :: 0.0 <= x ==> 0.0 <= sqrt(x) && Sq(sqrt(x)) == x
  }

  // ---------------------------------------------------------------------------
  // Vectors

  function DotProduct(v1: Vec, v2: Vec): real {
    v1.x * v2.x + v1.y * v2.y
  }

  function SquaredNorm(v: Vec): real {
    Sq(v.x) + Sq(v.y)
  }

  predicate NonZero(v: Vec) {
    v.x != 0.0 || v.y != 0.0
  }

  /** The Euclidean length of a non-zero vector. */
  function Magnitude(v: Vec, sqrt: real -> real): (m: real)
    requires IsSqrt(sqrt) && NonZero(v)
    ensures m > 0.0 && Sq(m) == SquaredNorm(v)
  {
    SumOfSquaresPositive(v.x, v.y);
    var m := sqrt(SquaredNorm(v));
    RootPositive(m, SquaredNorm(v));
    m
  }

  /** What `normalize` leaves in its argument: the vector divided by its length. */
  function Unit(v: Vec, sqrt: real -> real): Vec
    requires IsSqrt(sqrt) && NonZero(v)
  {
    var m := Magnitude(v, sqrt);
    Vec(v.x / m, v.y / m)
  }

  /** The normalised vector has length 1 and is a positive multiple of the input. */
  lemma UnitVector(v: Vec, sqrt: real -> real)
    requires IsSqrt(sqrt) && NonZero(v)
    ensures SquaredNorm(Unit(v, sqrt)) == 1.0
    ensures Magnitude(v, sqrt) * Unit(v, sqrt).x == v.x && Magnitude(v, sqrt) * Unit(v, sqrt).y == v.y
  {
    var m, u := Magnitude(v, sqrt), Unit(v, sqrt);
    DivideBack(v.x, m);
    DivideBack(v.y, m);
    SquareProduct(m, u.x);
    SquareProduct(m, u.y);
    FactorSum(Sq(m), Sq(u.x), Sq(u.y));
    SquarePositive(m);
    assert Sq(v.x) == Sq(m) * Sq(u.x) && Sq(v.y) == Sq(m) * Sq(u.y);
    assert Sq(m) * SquaredNorm(u) == SquaredNorm(v);
    assert Sq(m) == SquaredNorm(v);
    CancelPositive(Sq(m), SquaredNorm(u), 1.0);
  }

  /** `normalize`: divides both components of `v` by its length, in place, and
      returns the same list. */
  method Normalize(v: array<real>, sqrt: real -> real) returns (r: array<real>)
    requires IsSqrt(sqrt)
    requires v.Length == 2 && NonZero(Vec(v[0], v[1]))
    modifies v
    ensures r == v
    ensures Vec(v[0], v[1]) == Unit(Vec(old(v[0]), old(v[1])), sqrt)
  {
    ghost var u := Unit(Vec(v[0], v[1]), sqrt);
    var mag := sqrt(Sq(v[0]) + Sq(v[1]));
    assert mag == Magnitude(Vec(v[0], v[1]), sqrt);
    v[0] := v[0] / mag;
    v[1] := v[1] / mag;
    r := v;
  }

  /** The dot product of two unit vectors, scaled back by both lengths, is the
      dot product of the original vectors. */
  lemma UnitDotProduct(a: Vec, b: Vec, sqrt: real -> real)
    requires IsSqrt(sqrt) && NonZero(a) && NonZero(b)
    ensures DotProduct(Unit(a, sqrt), Unit(b, sqrt)) * (Magnitude(a, sqrt) * Magnitude(b, sqrt))
            == DotProduct(a, b)
  {
    var ua, ub := Unit(a, sqrt), Unit(b, sqrt);
    var ma, mb := Magnitude(a, sqrt), Magnitude(b, sqrt);
    UnitVector(a, sqrt);
    UnitVector(b, sqrt);
    ScaledDot(ua.x, ua.y, ub.x, ub.y, ma, mb);
  }

  // ---------------------------------------------------------------------------
  // Finger openness (`straightFingers`)

  /** From the joint two landmarks below the tip to the tip. */
  function FingerVector(hand: Hand, tip: nat): Vec
    requires 2 <= tip < LANDMARK_COUNT
  {
    Vec(hand[tip].x - hand[tip - 2].x, hand[tip].y - hand[tip - 2].y)
  }

  /** From the wrist to the joint two landmarks below the tip. */
  function PalmVector(hand: Hand, tip: nat): Vec
    requires 2 <= tip < LANDMARK_COUNT
  {
    Vec(hand[tip - 2].x - hand[WRIST].x, hand[tip - 2].y - hand[WRIST].y)
  }

  predicate FingerDefined(hand: Hand, tip: nat)
    requires 2 <= tip < LANDMARK_COUNT
  {
    NonZero(FingerVector(hand, tip)) && NonZero(PalmVector(hand, tip))
  }

  /** `normalize` has no guard against a zero vector: every finger and palm vector
      of the hand must be non-zero. */
  predicate NonDegenerate(hand: Hand) {
    forall k :: 0 <= k < |TIP_IDS| ==> FingerDefined(hand, TIP_IDS[k])
  }

  /** The cosine of the angle between the finger vector and the palm vector. */
  function Alignment(hand: Hand, tip: nat, sqrt: real -> real): real
    requires 2 <= tip < LANDMARK_COUNT && FingerDefined(hand, tip) && IsSqrt(sqrt)
  {
    DotProduct(Unit(FingerVector(hand, tip), sqrt), Unit(PalmVector(hand, tip), sqrt))
  }

  /** The entry recorded for one fingertip: the thumb collapses to -1 unless its
      alignment exceeds 0.65; the other fingers keep the raw alignment. */
  function FingerValue(hand: Hand, tip: nat, sqrt: real -> real): real
    requires 2 <= tip < LANDMARK_COUNT && FingerDefined(hand, tip) && IsSqrt(sqrt)
  {
    var a := Alignment(hand, tip, sqrt);
    if tip == THUMB_TIP then (if a > THUMB_THRESHOLD then a else THUMB_CLOSED) else a
  }

  /** The finger-openness vector: one entry per fingertip, thumb first. */
  function Openness(hand: Hand, sqrt: real -> real): (f: seq<real>)
    requires NonDegenerate(hand) && IsSqrt(sqrt)
    ensures |f| == |TIP_IDS|
  {
    seq(|TIP_IDS|, k requires 0 <= k < |TIP_IDS| => FingerValue(hand, TIP_IDS[k], sqrt))
  }

  /** `straightFingers`: one entry per fingertip id, appended in order. */
  method StraightFingers(hand: Hand, sqrt: real -> real) returns (openFingers: seq<real>)
    requires NonDegenerate(hand) && IsSqrt(sqrt)
    ensures openFingers == Openness(hand, sqrt)
  {
    var fingerTipIds := TIP_IDS;
    openFingers := [];
    var i := 0;
    while i < |fingerTipIds|
      invariant 0 <= i <= |fingerTipIds| && |openFingers| == i
      invariant forall k :: 0 <= k < i ==> openFingers[k] == FingerValue(hand, TIP_IDS[k], sqrt)
    {
      var id := fingerTipIds[i];
      assert FingerDefined(hand, id);
      var fv := new real[][hand[id].x - hand[id - 2].x, hand[id].y - hand[id - 2].y];
      fv := Normalize(fv, sqrt);
      var pv := new real[][hand[id - 2].x - hand[WRIST].x, hand[id - 2].y - hand[WRIST].y];
      pv := Normalize(pv, sqrt);
      var d := DotProduct(Vec(fv[0], fv[1]), Vec(pv[0], pv[1]));
      assert d == Alignment(hand, id, sqrt);
      if id == THUMB_TIP {
        if d > THUMB_THRESHOLD {
          openFingers := openFingers + [d];
        } else {
          openFingers := openFingers + [THUMB_CLOSED];
        }
      } else {
        openFingers := openFingers + [d];
      }
      i := i + 1;
    }
  }

  // Square-root-free characterisation of the openness vector

  /** The thumb test `alignment > 0.65` restated without square roots. */
  predicate ThumbOpen(hand: Hand)
    requires FingerDefined(hand, THUMB_TIP)
  {
    var fv, pv := FingerVector(hand, THUMB_TIP), PalmVector(hand, THUMB_TIP);
    var d := DotProduct(fv, pv);
    d > 0.0 && Sq(d) > Sq(THUMB_THRESHOLD) * (SquaredNorm(fv) * SquaredNorm(pv))
  }

  predicate SameSign(a: real, b: real) {
    (a > 0.0 <==> b > 0.0) && (a < 0.0 <==> b < 0.0)
  }

  /** A non-thumb entry has the sign of the unnormalised dot product of the finger
      vector and the palm vector (dividing by positive lengths keeps signs). */
  lemma AlignmentSign(hand: Hand, tip: nat, sqrt: real -> real)
    requires 2 <= tip < LANDMARK_COUNT && FingerDefined(hand, tip) && IsSqrt(sqrt)
    ensures SameSign(Alignment(hand, tip, sqrt), DotProduct(FingerVector(hand, tip), PalmVector(hand, tip)))
  {
    var fv, pv := FingerVector(hand, tip), PalmVector(hand, tip);
    UnitDotProduct(fv, pv, sqrt);
    var p := Magnitude(fv, sqrt) * Magnitude(pv, sqrt);
    assert p > 0.0;
    SignOfScaled(Alignment(hand, tip, sqrt), p);
  }

  /** Every alignment lies in [-1, 1]: it is the dot product of two unit vectors. */
  lemma AlignmentBounds(hand: Hand, tip: nat, sqrt: real -> real)
    requires 2 <= tip < LANDMARK_COUNT && FingerDefined(hand, tip) && IsSqrt(sqrt)
    ensures -1.0 <= Alignment(hand, tip, sqrt) <= 1.0
  {
    var u, w := Unit(FingerVector(hand, tip), sqrt), Unit(PalmVector(hand, tip), sqrt);
    UnitVector(FingerVector(hand, tip), sqrt);
    UnitVector(PalmVector(hand, tip), sqrt);
    assert Sq(u.x) + Sq(u.y) == 1.0 && Sq(w.x) + Sq(w.y) == 1.0;
    UnitDotBounds(u.x, u.y, w.x, w.y);
    assert Alignment(hand, tip, sqrt) == u.x * w.x + u.y * w.y;
  }

  /** The thumb entry exceeds 0.65 exactly when the square-root-free test holds,
      and is exactly -1 otherwise. */
  lemma ThumbEntry(hand: Hand, sqrt: real -> real)
    requires FingerDefined(hand, THUMB_TIP) && IsSqrt(sqrt)
    ensures ThumbOpen(hand) ==> FingerValue(hand, THUMB_TIP, sqrt) > THUMB_THRESHOLD
    ensures !ThumbOpen(hand) ==> FingerValue(hand, THUMB_TIP, sqrt) == THUMB_CLOSED
  {
    var fv, pv := FingerVector(hand, THUMB_TIP), PalmVector(hand, THUMB_TIP);
    var d := DotProduct(fv, pv);
    var a := Alignment(hand, THUMB_TIP, sqrt);
    var ma, mb := Magnitude(fv, sqrt), Magnitude(pv, sqrt);
    var p := ma * mb;
    UnitDotProduct(fv, pv, sqrt);
    assert a * p == d;
    MulPos(ma, mb);
    var q := THUMB_THRESHOLD * p;
    ScaledCompare(a, THUMB_THRESHOLD, p);
    assert a > THUMB_THRESHOLD <==> d > q;
    MulPos(THUMB_THRESHOLD, p);
    SquareProduct(THUMB_THRESHOLD, p);
    SquareProduct(ma, mb);
    assert Sq(q) == Sq(THUMB_THRESHOLD) * (SquaredNorm(fv) * SquaredNorm(pv));
    if d > 0.0 {
      SquareMonotone(d, q);
      assert ThumbOpen(hand) <==> d > q;
    } else {
      assert !ThumbOpen(hand) && a <= THUMB_THRESHOLD;
    }
  }

  /** The thumb entry is -1 or in (0.65, 1] (so never 0 and never in (-1, 0.65]),
      decided by the square-root-free test; each other entry lies in [-1, 1] and
      has the sign of its unnormalised dot product. */
  lemma OpennessEntries(hand: Hand, sqrt: real -> real)
    requires NonDegenerate(hand) && IsSqrt(sqrt)
    ensures var t := Openness(hand, sqrt)[0];
      (t == THUMB_CLOSED || THUMB_THRESHOLD < t <= 1.0) && (t > THUMB_THRESHOLD <==> ThumbOpen(hand))
    ensures forall k :: 1 <= k < |TIP_IDS| ==>
      SameSign(Openness(hand, sqrt)[k],
               DotProduct(FingerVector(hand, TIP_IDS[k]), PalmVector(hand, TIP_IDS[k])))
    ensures forall k :: 0 <= k < |TIP_IDS| ==> -1.0 <= Openness(hand, sqrt)[k] <= 1.0
  {
    assert FingerDefined(hand, TIP_IDS[0]);
    ThumbEntry(hand, sqrt);
    AlignmentBounds(hand, TIP_IDS[0], sqrt);
    forall k | 1 <= k < |TIP_IDS|
      ensures SameSign(Openness(hand, sqrt)[k],
                       DotProduct(FingerVector(hand, TIP_IDS[k]), PalmVector(hand, TIP_IDS[k])))
      ensures -1.0 <= Openness(hand, sqrt)[k] <= 1.0
    {
      assert FingerDefined(hand, TIP_IDS[k]);
      AlignmentSign(hand, TIP_IDS[k], sqrt);
      AlignmentBounds(hand, TIP_IDS[k], sqrt);
    }
  }

  /** The entry for one fingertip computed without square roots: +1 or -1 for the
      thumb, the unnormalised dot product for the other fingers. */
  function RawEntry(hand: Hand, tip: nat): real
    requires 2 <= tip < LANDMARK_COUNT && FingerDefined(hand, tip)
  {
    if tip == THUMB_TIP then (if ThumbOpen(hand) then 1.0 else THUMB_CLOSED)
    else DotProduct(FingerVector(hand, tip), PalmVector(hand, tip))
  }

  /** The square-root-free entries for a list of fingertips, in order. */
  function RawEntries(hand: Hand, tips: seq<nat>): (r: seq<real>)
    requires forall k :: 0 <= k < |tips| ==> 2 <= tips[k] < LANDMARK_COUNT && FingerDefined(hand, tips[k])
    ensures |r| == |tips|
    decreases |tips|
  {
    if tips == [] then [] else [RawEntry(hand, tips[0])] + RawEntries(hand, tips[1..])
  }

  lemma {:induction false} RawEntriesAt(hand: Hand, tips: seq<nat>, k: nat)
    requires forall j :: 0 <= j < |tips| ==> 2 <= tips[j] < LANDMARK_COUNT && FingerDefined(hand, tips[j])
    requires k < |tips|
    ensures RawEntries(hand, tips)[k] == RawEntry(hand, tips[k])
    decreases k
  {
    if k > 0 {
      RawEntriesAt(hand, tips[1..], k - 1);
    }
  }

  /** An openness vector computed without square roots. */
  function RawOpenness(hand: Hand): (r: seq<real>)
    requires NonDegenerate(hand)
    ensures |r| == |TIP_IDS|
  {
    RawEntries(hand, TIP_IDS)
  }

  // ---------------------------------------------------------------------------
  // Gesture decision table (`gesture`)

  datatype Gesture =
    | Unset          // the empty label the tracker starts with; never produced by Classify
    | RockAndRoll | ThumbsUp | ThumbsDown | OneFinger | Peace
    | OpenHand | Fist | FourFingers | ThreeFingers | NoGesture

  /** The label the source uses for each gesture. */
  function Label(g: Gesture): string {
    match g
    case Unset => ""
    case RockAndRoll => "Rock & Roll"
    case ThumbsUp => "Thumbs Up"
    case ThumbsDown => "Thumbs Down"
    case OneFinger => "1 finger"
    case Peace => "Peace"
    case OpenHand => "Open Hand"
    case Fist => "Fist"
    case FourFingers => "4 fingers"
    case ThreeFingers => "3 fingers"
    case NoGesture => "No Gesture"
  }

  /** Distinct gestures have distinct labels, so comparing gestures (as the
      recentering test does) is comparing the strings the source compares, and the
      tracker's initial empty label is no gesture's label. */
  lemma LabelInjective(g: Gesture, h: Gesture)
    ensures Label(g) == Label(h) <==> g == h
    ensures g != Unset ==> Label(g) != ""
  {
  }

  /** Open is strictly positive, closed strictly negative; 0 is neither. */
  predicate IsOpen(v: real) { v > 0.0 }
  predicate IsClosed(v: real) { v < 0.0 }

  predicate RockAndRollPattern(f: seq<real>) requires |f| == 5 {
    IsOpen(f[1]) && IsClosed(f[2]) && IsOpen(f[4]) && IsClosed(f[3])
  }
  predicate ThumbOnlyPattern(f: seq<real>) requires |f| == 5 {
    IsOpen(f[0]) && IsClosed(f[1]) && IsClosed(f[2]) && IsClosed(f[3]) && IsClosed(f[4])
  }
  predicate OneFingerPattern(f: seq<real>) requires |f| == 5 {
    IsClosed(f[0]) && IsOpen(f[1]) && IsClosed(f[2]) && IsClosed(f[3]) && IsClosed(f[4])
  }
  predicate PeacePattern(f: seq<real>) requires |f| == 5 {
    IsClosed(f[0]) && IsOpen(f[1]) && IsOpen(f[2]) && IsClosed(f[3]) && IsClosed(f[4])
  }
  predicate OpenHandPattern(f: seq<real>) requires |f| == 5 {
    IsOpen(f[0]) && IsOpen(f[1]) && IsOpen(f[2]) && IsOpen(f[3]) && IsOpen(f[4])
  }
  predicate FistPattern(f: seq<real>) requires |f| == 5 {
    IsClosed(f[0]) && IsClosed(f[1]) && IsClosed(f[2]) && IsClosed(f[3]) && IsClosed(f[4])
  }
  predicate FourFingersPattern(f: seq<real>) requires |f| == 5 {
    IsClosed(f[0]) && IsOpen(f[1]) && IsOpen(f[2]) && IsOpen(f[3]) && IsOpen(f[4])
  }
  predicate ThreeFingersPattern(f: seq<real>) requires |f| == 5 {
    IsClosed(f[0]) && IsOpen(f[1]) && IsOpen(f[2]) && IsOpen(f[3]) && IsClosed(f[4])
  }

  /** The eight rules of the decision table, in source order. */
  predicate Rule(k: nat, f: seq<real>)
    requires k < 8 && |f| == 5
  {
    match k
    case 0 => RockAndRollPattern(f)
    case 1 => ThumbOnlyPattern(f)
    case 2 => OneFingerPattern(f)
    case 3 => PeacePattern(f)
    case 4 => OpenHandPattern(f)
    case 5 => FistPattern(f)
    case 6 => FourFingersPattern(f)
    case _ => ThreeFingersPattern(f)
  }

  /** `gesture`: the first matching rule wins. Because the rules are pairwise
      disjoint, each gesture is produced exactly when its own pattern holds. */
  function Classify(f: seq<real>, hand: Hand): (g: Gesture)
    requires |f| == 5
    ensures g != Unset
    ensures g == RockAndRoll <==> RockAndRollPattern(f)
    ensures g == ThumbsUp <==> ThumbOnlyPattern(f) && hand[THUMB_TIP].y < hand[THUMB_BASE].y
    ensures g == ThumbsDown <==> ThumbOnlyPattern(f) && hand[THUMB_TIP].y >= hand[THUMB_BASE].y
    ensures g == OneFinger <==> OneFingerPattern(f)
    ensures g == Peace <==> PeacePattern(f)
    ensures g == OpenHand <==> OpenHandPattern(f)
    ensures g == Fist <==> FistPattern(f)
    ensures g == FourFingers <==> FourFingersPattern(f)
    ensures g == ThreeFingers <==> ThreeFingersPattern(f)
    ensures (f[1] == 0.0 || f[2] == 0.0 || f[3] == 0.0 || f[4] == 0.0) ==> g == NoGesture
  {
    if RockAndRollPattern(f) then RockAndRoll
    else if ThumbOnlyPattern(f) then
      (if hand[THUMB_TIP].y < hand[THUMB_BASE].y then ThumbsUp else ThumbsDown)
    else if OneFingerPattern(f) then OneFinger
    else if PeacePattern(f) then Peace
    else if OpenHandPattern(f) then OpenHand
    else if FistPattern(f) then Fist
    else if FourFingersPattern(f) then FourFingers
    else if ThreeFingersPattern(f) then ThreeFingers
    else NoGesture
  }

  /** No two rules of the table can hold together, so their order never matters. */
  lemma RulesDisjoint(f: seq<real>, i: nat, j: nat)
    requires |f| == 5 && i < 8 && j < 8 && i != j
    ensures !(Rule(i, f) && Rule(j, f))
  {
  }

  /** Classification looks only at the signs of the entries. */
  lemma ClassifyBySign(f: seq<real>, f': seq<real>, hand: Hand)
    requires |f| == 5 && |f'| == 5
    requires forall k :: 0 <= k < 5 ==> SameSign(f[k], f'[k])
    ensures Classify(f, hand) == Classify(f', hand)
  {
    assert SameSign(f[0], f'[0]) && SameSign(f[1], f'[1]) && SameSign(f[2], f'[2])
      && SameSign(f[3], f'[3]) && SameSign(f[4], f'[4]);
  }

  /** The gesture of a hand, decided on the square-root-free openness vector. */
  function HandGesture(hand: Hand): Gesture
    requires NonDegenerate(hand)
  {
    Classify(RawOpenness(hand), hand)
  }

  /** Classifying the openness vector that `straightFingers` computes gives the
      hand's gesture, whatever exact square root is used. */
  lemma HandGestureWithoutSqrt(hand: Hand, sqrt: real -> real)
    requires NonDegenerate(hand) && IsSqrt(sqrt)
    ensures Classify(Openness(hand, sqrt), hand) == HandGesture(hand)
  {
    OpennessEntries(hand, sqrt);
    var f, r := Openness(hand, sqrt), RawOpenness(hand);
    forall k | 0 <= k < 5
      ensures SameSign(f[k], r[k])
    {
      RawEntriesAt(hand, TIP_IDS, k);
    }
    ClassifyBySign(f, r, hand);
  }

  // ---------------------------------------------------------------------------
  // Per-frame aggregation (`HandInput.getHandInput`)

  /** The recentering branch condition: entering Thumbs Up from anything but
      Thumbs Up or Fist. */
  predicate RecenterTriggered(last: Gesture, current: Gesture) {
    last != ThumbsUp && last != Fist && current == ThumbsUp
  }

  /** The gesture the `n`-th of a run of gestures is compared with: the one before
      it, or `last` (the gesture remembered from earlier) for the first. */
  function Previous(last: Gesture, gs: seq<Gesture>, n: nat): Gesture
    requires n <= |gs|
  {
    if n == 0 then last else gs[n - 1]
  }

  /** How many times the recentering branch fires over the first `n` gestures of a
      run, each compared with the one before it. */
  function Recenterings(last: Gesture, gs: seq<Gesture>, n: nat): nat
    requires n <= |gs|
  {
    if n == 0 then 0
    else Recenterings(last, gs, n - 1) + (if RecenterTriggered(Previous(last, gs, n - 1), gs[n - 1]) then 1 else 0)
  }

  /** Holding Thumbs Up (within a frame or across frames) never re-fires recentering. */
  lemma {:induction false} SustainedThumbsUpNoRecenter(gs: seq<Gesture>, n: nat)
    requires n <= |gs| && forall k :: 0 <= k < |gs| ==> gs[k] == ThumbsUp
    ensures Recenterings(ThumbsUp, gs, n) == 0
  {
    if n > 0 {
      SustainedThumbsUpNoRecenter(gs, n - 1);
    }
  }

  /** Entering Thumbs Up from another gesture (not Fist) and holding it fires
      exactly once. */
  lemma {:induction false} EnterThumbsUpRecentersOnce(last: Gesture, gs: seq<Gesture>, n: nat)
    requires last != ThumbsUp && last != Fist
    requires 0 < n <= |gs| && forall k :: 0 <= k < |gs| ==> gs[k] == ThumbsUp
    ensures Recenterings(last, gs, n) == 1
  {
    if n > 1 {
      EnterThumbsUpRecentersOnce(last, gs, n - 1);
    }
  }

  /** Splitting a run: the second part is compared, at its start, with the last
      gesture of the first part. */
  lemma {:induction false} RecenteringsAppend(last: Gesture, a: seq<Gesture>, b: seq<Gesture>, n: nat)
    requires n <= |b|
    ensures Recenterings(last, a + b, |a| + n)
      == Recenterings(last, a, |a|) + Recenterings(Previous(last, a, |a|), b, n)
  {
    if n > 0 {
      RecenteringsAppend(last, a, b, n - 1);
      assert (a + b)[|a| + n - 1] == b[n - 1];
      if n == 1 {
        assert Previous(last, a + b, |a|) == Previous(last, a, |a|);
      } else {
        assert (a + b)[|a| + n - 2] == b[n - 2];
      }
    } else {
      RecenteringsPrefix(last, a, b, |a|);
    }
  }

  lemma {:induction false} RecenteringsPrefix(last: Gesture, a: seq<Gesture>, b: seq<Gesture>, n: nat)
    requires n <= |a|
    ensures Recenterings(last, a + b, n) == Recenterings(last, a, n)
  {
    if n > 0 {
      RecenteringsPrefix(last, a, b, n - 1);
      assert (a + b)[n - 1] == a[n - 1];
      if n > 1 {
        assert (a + b)[n - 2] == a[n - 2];
      }
    }
  }

  /** The gesture of each hand of a frame, in order. */
  function Gestures(hands: seq<Hand>): (gs: seq<Gesture>)
    requires forall i :: 0 <= i < |hands| ==> NonDegenerate(hands[i])
    ensures |gs| == |hands|
    decreases |hands|
  {
    if hands == [] then [] else [HandGesture(hands[0])] + Gestures(hands[1..])
  }

  /** Every landmark of every hand, in order. */
  function Landmarks(hands: seq<Hand>): (pts: seq<Point>)
    decreases |hands|
  {
    if hands == [] then [] else Landmarks(hands[..|hands| - 1]) + hands[|hands| - 1]
  }

  /** Running sums over the landmarks whose x is non-zero, and how many there were. */
  datatype Sums = Sums(x: real, y: real, count: nat)

  function Accumulate(pts: seq<Point>): Sums
    decreases |pts|
  {
    if pts == [] then Sums(0.0, 0.0, 0)
    else
      var s := Accumulate(pts[..|pts| - 1]);
      var p := pts[|pts| - 1];
      if p.x != 0.0 then Sums(s.x + p.x, s.y + p.y, s.count + 1) else s
  }

  /** The value `getHandInput` returns from its running sums: their mean minus the
      anchor, or [0, 1] when nothing was counted. */
  function Control(delta: seq<real>, counts: nat, center: seq<real>): seq<real>
    requires |delta| == 2 && |center| == 2
  {
    if counts != 0 then [delta[0] / counts as real - center[0], delta[1] / counts as real - center[1]]
    else NO_HAND
  }

  /** The control vector of a frame: the mean of the counted landmarks (the y sum
      seeded with 1) minus the anchor, or [0, 1] when nothing was counted. */
  function FrameControl(hands: seq<Hand>, center: seq<real>): seq<real>
    requires |center| == 2
  {
    var s := Accumulate(Landmarks(hands));
    Control(Delta(s), s.count, center)
  }

  lemma {:induction false} LandmarksLength(hands: seq<Hand>)
    ensures |Landmarks(hands)| == LANDMARK_COUNT * |hands|
    decreases |hands|
  {
    if hands != [] {
      LandmarksLength(hands[..|hands| - 1]);
    }
  }

  /** Nothing is counted exactly when every landmark has x == 0; never more
      landmarks are counted than there are. */
  lemma {:induction false} CountZeroIff(pts: seq<Point>)
    ensures Accumulate(pts).count <= |pts|
    ensures Accumulate(pts).count == 0 <==> forall k :: 0 <= k < |pts| ==> pts[k].x == 0.0
    decreases |pts|
  {
    if pts != [] {
      var init := pts[..|pts| - 1];
      CountZeroIff(init);
      assert forall k :: 0 <= k < |init| ==> init[k] == pts[k];
    }
  }

  predicate InUnitSquare(p: Point) {
    0.0 <= p.x <= 1.0 && 0.0 <= p.y <= 1.0
  }

  lemma {:induction false} AccumulateBounds(pts: seq<Point>)
    requires forall k :: 0 <= k < |pts| ==> InUnitSquare(pts[k])
    ensures var s := Accumulate(pts);
      0.0 <= s.y <= s.count as real && 0.0 <= s.x <= s.count as real
      && (s.count > 0 ==> s.x > 0.0)
    decreases |pts|
  {
    if pts != [] {
      var init := pts[..|pts| - 1];
      assert forall k :: 0 <= k < |init| ==> init[k] == pts[k];
      AccumulateBounds(init);
    }
  }

  /** With no hands, or no landmark with x != 0, the control vector is [0, 1]. */
  lemma NoLandmarkSentinel(hands: seq<Hand>)
    requires forall i, k :: 0 <= i < |hands| && 0 <= k < LANDMARK_COUNT ==> hands[i][k].x == 0.0
    ensures FrameControl(hands, HAND_CENTER) == NO_HAND
  {
    LandmarksAllZero(hands);
    CountZeroIff(Landmarks(hands));
  }

  lemma {:induction false} LandmarksAllZero(hands: seq<Hand>)
    requires forall i, k :: 0 <= i < |hands| && 0 <= k < LANDMARK_COUNT ==> hands[i][k].x == 0.0
    ensures forall k :: 0 <= k < |Landmarks(hands)| ==> Landmarks(hands)[k].x == 0.0
    decreases |hands|
  {
    if hands != [] {
      var init := hands[..|hands| - 1];
      assert forall i :: 0 <= i < |init| ==> init[i] == hands[i];
      LandmarksAllZero(init);
    }
  }

  /** For landmarks inside the unit square, once something is counted the
      horizontal control lies in (-0.5, 0.5] and the vertical one is the mean y
      plus 1/count, in [1/count, 1 + 1/count]. */
  lemma ControlBounds(hands: seq<Hand>)
    requires forall i, k :: 0 <= i < |hands| && 0 <= k < LANDMARK_COUNT ==> InUnitSquare(hands[i][k])
    requires Accumulate(Landmarks(hands)).count > 0
    ensures var r, s := FrameControl(hands, HAND_CENTER), Accumulate(Landmarks(hands));
      var n := s.count as real;
      -0.5 < r[0] <= 0.5 && r[1] == s.y / n + 1.0 / n && 1.0 / n <= r[1] <= 1.0 + 1.0 / n
  {
    LandmarksInSquare(hands);
    AccumulateBounds(Landmarks(hands));
    SumsControl(Accumulate(Landmarks(hands)));
  }

  /** The control vector of sums whose mean lies in the unit square. */
  lemma SumsControl(s: Sums)
    requires s.count > 0 && 0.0 < s.x <= s.count as real && 0.0 <= s.y <= s.count as real
    ensures var r, n := Control(Delta(s), s.count, HAND_CENTER), s.count as real;
      -0.5 < r[0] <= 0.5 && r[1] == s.y / n + 1.0 / n && 1.0 / n <= r[1] <= 1.0 + 1.0 / n
  {
    var n := s.count as real;
    FractionBounds(s.x, n);
    FractionBounds(s.y, n);
    DivideSum(1.0, s.y, n);
  }

  lemma {:induction false} LandmarksInSquare(hands: seq<Hand>)
    requires forall i, k :: 0 <= i < |hands| && 0 <= k < LANDMARK_COUNT ==> InUnitSquare(hands[i][k])
    ensures forall k :: 0 <= k < |Landmarks(hands)| ==> InUnitSquare(Landmarks(hands)[k])
    decreases |hands|
  {
    if hands != [] {
      var init := hands[..|hands| - 1];
      assert forall i :: 0 <= i < |init| ==> init[i] == hands[i];
      LandmarksInSquare(init);
    }
  }

  /** The tracker state kept across frames. */
  class HandInput {
    var handDelta: seq<real>
    var handCenter: seq<real>
    var currentGesture: Gesture
    var lastGesture: Gesture

    ghost predicate Valid()
      reads this
    {
      |handDelta| == 2 && handCenter == HAND_CENTER
    }

    constructor ()
      ensures Valid()
      ensures handDelta == [0.0, 0.0] && currentGesture == Unset && lastGesture == Unset
    {
      handDelta := [0.0, 0.0];
      handCenter := HAND_CENTER;
      currentGesture := Unset;
      lastGesture := Unset;
    }

    /** `getHandInput` for one frame whose detector output is `hands`.
        `recenterings` counts how often the recentering branch (which only logs)
        fired during the frame. */
    method GetHandInput(hands: seq<Hand>, sqrt: real -> real) returns (delta: seq<real>, ghost recenterings: nat)
      requires Valid() && IsSqrt(sqrt)
      requires forall i :: 0 <= i < |hands| ==> NonDegenerate(hands[i])
      modifies this
      ensures Valid()
      ensures delta == FrameControl(hands, HAND_CENTER)
      ensures handDelta == Delta(Accumulate(Landmarks(hands)))
      ensures hands == [] ==> currentGesture == old(currentGesture) && lastGesture == old(lastGesture)
      ensures hands != [] ==>
        currentGesture == lastGesture == HandGesture(hands[|hands| - 1])
      ensures recenterings == Recenterings(old(lastGesture), Gestures(hands), |hands|)
    {
      handDelta := [0.0, 1.0];
      var counts: nat := 0;
      recenterings := 0;
      FrameSumsFlat(hands, |hands|);
      assert hands[..|hands|] == hands;
      ghost var gs := Gestures(hands);
      GesturesLabel(hands);
      if |hands| > 0 {
        counts, recenterings := ProcessHands(hands, sqrt, gs);
      } else {
        handDelta := [0.0, 1.0];
      }
      delta := Control(handDelta, counts, handCenter);
    }

    /** The hand loop of `getHandInput`, starting from `handDelta` = [0, 1]: returns
        how many landmarks were counted and how often recentering fired. `gs` are
        the gestures of the hands. */
    method ProcessHands(hands: seq<Hand>, sqrt: real -> real, ghost gs: seq<Gesture>)
      returns (counts: nat, ghost recenterings: nat)
      requires Valid() && IsSqrt(sqrt) && handDelta == [0.0, 1.0]
      requires forall i :: 0 <= i < |hands| ==> NonDegenerate(hands[i])
      requires GestureLabels(hands, gs)
      modifies this
      ensures Valid()
      ensures handDelta == Delta(FrameSums(hands, |hands|)) && counts == FrameSums(hands, |hands|).count
      ensures hands == [] ==> currentGesture == old(currentGesture) && lastGesture == old(lastGesture)
      ensures hands != [] ==> currentGesture == lastGesture == gs[|hands| - 1]
      ensures recenterings == Recenterings(old(lastGesture), gs, |hands|)
    {
      counts := 0;
      recenterings := 0;
      ghost var sums := Sums(0.0, 0.0, 0);
      var i := 0;
      while i < |hands|
        invariant 0 <= i <= |hands|
        invariant Valid()
        invariant sums == FrameSums(hands, i)
        invariant handDelta == Delta(sums) && counts == sums.count
        invariant i == 0 ==> currentGesture == old(currentGesture) && lastGesture == old(lastGesture)
        invariant i > 0 ==> currentGesture == lastGesture == gs[i - 1]
        invariant recenterings == Recenterings(old(lastGesture), gs, i)
      {
        var n, centering := ProcessHand(hands, i, sqrt, gs);
        if centering {
          recenterings := recenterings + 1;
        }
        counts := counts + n;
        sums := Plus(sums, Accumulate(hands[i]));
        i := i + 1;
      }
    }

    /** The body of the hand loop of `getHandInput` for hand `i`: classify it, report
        whether the recentering branch fires (it only logs "Centering"), add the
        hand's landmarks, and remember the gesture. */
    method ProcessHand(hands: seq<Hand>, i: nat, sqrt: real -> real, ghost gs: seq<Gesture>)
      returns (n: nat, centering: bool)
      requires Valid() && IsSqrt(sqrt) && i < |hands| && NonDegenerate(hands[i])
      requires GestureLabels(hands, gs)
      modifies this
      ensures Valid()
      ensures centering == RecenterTriggered(old(lastGesture), gs[i])
      ensures currentGesture == lastGesture == gs[i]
      ensures var s := Accumulate(hands[i]);
        handDelta == [old(handDelta[0]) + s.x, old(handDelta[1]) + s.y] && n == s.count
    {
      var hand := hands[i];
      ClassifyHand(hands, i, sqrt, gs);
      centering := lastGesture != ThumbsUp && lastGesture != Fist && currentGesture == ThumbsUp;
      n := AddLandmarks(hand);
      lastGesture := currentGesture;
    }

    /** The gesture step of `getHandInput` for hand `i`: the openness vector, then
        the decision table. */
    method ClassifyHand(hands: seq<Hand>, i: nat, sqrt: real -> real, ghost gs: seq<Gesture>)
      requires Valid() && IsSqrt(sqrt) && i < |hands| && NonDegenerate(hands[i])
      requires GestureLabels(hands, gs)
      modifies this
      ensures Valid() && handDelta == old(handDelta) && lastGesture == old(lastGesture)
      ensures currentGesture == gs[i]
    {
      var hand := hands[i];
      var f := StraightFingers(hand, sqrt);
      currentGesture := Classify(f, hand);
      HandGestureWithoutSqrt(hand, sqrt);
    }

    /** The landmark loop of `getHandInput` for one hand: adds the coordinates of
        every landmark with x != 0 to `handDelta` and returns how many there were. */
    method AddLandmarks(hand: Hand) returns (n: nat)
      requires Valid()
      modifies this
      ensures Valid() && handCenter == old(handCenter)
      ensures currentGesture == old(currentGesture) && lastGesture == old(lastGesture)
      ensures var s := Accumulate(hand);
        handDelta == [old(handDelta[0]) + s.x, old(handDelta[1]) + s.y] && n == s.count
    {
      n := 0;
      var j := 0;
      while j < |hand|
        invariant 0 <= j <= |hand|
        invariant Valid() && handCenter == old(handCenter)
        invariant currentGesture == old(currentGesture) && lastGesture == old(lastGesture)
        invariant var s := Accumulate(hand[..j]);
          handDelta == [old(handDelta[0]) + s.x, old(handDelta[1]) + s.y] && n == s.count
      {
        var point := hand[j];
        assert hand[..j + 1][..j] == hand[..j];
        if point.x != 0.0 {
          handDelta := [handDelta[0] + point.x, handDelta[1] + point.y];
          n := n + 1;
        }
        j := j + 1;
      }
      assert hand[..j] == hand;
    }
  }

  /** The source's `handDelta` after summing: x from 0, y from 1. */
  function Delta(s: Sums): seq<real> {
    [s.x, 1.0 + s.y]
  }

  function Plus(a: Sums, b: Sums): Sums {
    Sums(a.x + b.x, a.y + b.y, a.count + b.count)
  }

  /** Summing a concatenation is summing the parts. */
  lemma {:induction false} AccumulateAppend(a: seq<Point>, b: seq<Point>)
    ensures Accumulate(a + b) == Plus(Accumulate(a), Accumulate(b))
    decreases |b|
  {
    if b == [] {
      assert a + b == a;
    } else {
      var b', p := b[..|b| - 1], b[|b| - 1];
      var ab := a + b;
      assert ab != [] && ab[..|ab| - 1] == a + b' && ab[|ab| - 1] == p;
      AccumulateAppend(a, b');
      var s := Accumulate(a + b');
      assert Accumulate(ab) == if p.x != 0.0 then Sums(s.x + p.x, s.y + p.y, s.count + 1) else s;
    }
  }

  /** The sums of the first `n` hands of a frame, hand by hand, in the order the
      loop visits them. */
  function FrameSums(hands: seq<Hand>, n: nat): Sums
    requires n <= |hands|
  {
    if n == 0 then Sums(0.0, 0.0, 0)
    else Plus(FrameSums(hands, n - 1), Accumulate(hands[n - 1]))
  }

  /** Summing hand by hand is summing every landmark of those hands in order. */
  lemma {:induction false} FrameSumsFlat(hands: seq<Hand>, n: nat)
    requires n <= |hands|
    ensures FrameSums(hands, n) == Accumulate(Landmarks(hands[..n]))
  {
    if n > 0 {
      FrameSumsFlat(hands, n - 1);
      assert hands[..n][..n - 1] == hands[..n - 1];
      AccumulateAppend(Landmarks(hands[..n - 1]), hands[n - 1]);
    }
  }

  /** `gs` are the gestures of `hands`, one each, in order. The quantifier fires only
      on `HandGesture` terms, so a proof that merely passes `gs` along never unfolds
      the classification of a hand. */
  ghost predicate GestureLabels(hands: seq<Hand>, gs: seq<Gesture>) {
    |gs| == |hands|
    && forall k {:trigger HandGesture(hands[k])} :: 0 <= k < |hands| ==>
         NonDegenerate(hands[k]) && gs[k] == HandGesture(hands[k])
  }

  lemma GesturesLabel(hands: seq<Hand>)
    requires forall k :: 0 <= k < |hands| ==> NonDegenerate(hands[k])
    ensures GestureLabels(hands, Gestures(hands))
  {
    forall k | 0 <= k < |hands|
      ensures Gestures(hands)[k] == HandGesture(hands[k])
    {
      GesturesAt(hands, k);
    }
  }

  lemma {:induction false} GesturesAt(hands: seq<Hand>, i: nat)
    requires forall k :: 0 <= k < |hands| ==> NonDegenerate(hands[k])
    requires i < |hands|
    ensures Gestures(hands)[i] == HandGesture(hands[i])
    decreases i
  {
    if i > 0 {
      GesturesAt(hands[1..], i - 1);
    }
  }
}
