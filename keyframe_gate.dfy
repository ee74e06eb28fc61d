/**
 * The keyframe gate of Pose_Graph/node.cpp: `calculateDist` and the
 * comparison against `threshold_distance`. Coordinates are reals and the
 * gate compares squared planar distances, which spares the square root.
 */
module KeyframeGate {

  /** The configured gate distance (`threshold_distance`). */
  const ThresholdDistance: real := 0.5

  /** Squared Euclidean distance between two pose vectors over x (index 0) and y (index 1). */
  function SquaredDist(curr: seq<real>, prev: seq<real>): (d: real)
    requires |curr| >= 2 && |prev| >= 2
    ensures d >= 0.0
  {
    var dx := curr[0] - prev[0];
    var dy := curr[1] - prev[1];
    dx * dx + dy * dy
  }

  /** Accept a new keyframe when the planar distance reaches the threshold (inclusive). */
  predicate Accept(curr: seq<real>, prev: seq<real>, threshold: real)
    requires |curr| >= 2 && |prev| >= 2 && threshold >= 0.0
  {
    SquaredDist(curr, prev) >= threshold * threshold
  }

  /** Real-arithmetic step behind AcceptIffDistanceAtLeast: multiplying by c >= 0 keeps <=. */
  lemma MulLeftMonotone(a: real, b: real, c: real)
    requires c >= 0.0 && a <= b
    ensures c * a <= c * b
  {
  }

  /** Real-arithmetic step behind AcceptIffDistanceAtLeast: multiplying by c > 0 keeps <. */
  lemma MulLeftStrict(a: real, b: real, c: real)
    requires c > 0.0 && a < b
    ensures c * a < c * b
  {
  }

  /**
   * The gate reads as the source's: for the planar distance d (any d >= 0
   * whose square is the squared distance), the gate accepts exactly when
   * d >= threshold, so equality accepts and anything shorter rejects.
   */
  lemma AcceptIffDistanceAtLeast(curr: seq<real>, prev: seq<real>, threshold: real, d: real)
    requires |curr| >= 2 && |prev| >= 2 && threshold >= 0.0
    requires d >= 0.0 && d * d == SquaredDist(curr, prev)
    ensures Accept(curr, prev, threshold) <==> d >= threshold
  {
    if d >= threshold {
      MulLeftMonotone(threshold, d, threshold);
      MulLeftMonotone(threshold, d, d);
      assert threshold * threshold <= d * d;
    } else {
      MulLeftMonotone(d, threshold, d);
      MulLeftStrict(d, threshold, threshold);
      calc {
        SquaredDist(curr, prev);
      ==
        d * d;
      <=
        d * threshold;
      ==
        threshold * d;
      <
        threshold * threshold;
      }
    }
  }

  /** Yaw (index 2), or anything after y, never changes the gate's decision. */
  lemma AcceptIgnoresYaw(curr: seq<real>, curr': seq<real>, prev: seq<real>, prev': seq<real>, threshold: real)
    requires |curr| >= 2 && |prev| >= 2 && |curr'| >= 2 && |prev'| >= 2 && threshold >= 0.0
    requires curr[..2] == curr'[..2] && prev[..2] == prev'[..2]
    ensures Accept(curr, prev, threshold) == Accept(curr', prev', threshold)
  {
  }

  /**
   * With the start pose (0, 0, 0) and threshold 0.5, a pose at distance 0.3
   * is rejected, one at 0.6 accepted, and one at exactly 0.5 accepted.
   */
  lemma GateScenario()
    ensures !Accept([0.0, 0.3, 0.0], [0.0, 0.0, 0.0], ThresholdDistance)
    ensures Accept([0.0, 0.6, 0.0], [0.0, 0.0, 0.0], ThresholdDistance)
    ensures Accept([0.3, 0.4, 1.0], [0.0, 0.0, 0.0], ThresholdDistance)
  {
  }
}
