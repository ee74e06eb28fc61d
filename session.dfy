/**
 * The node's session loop (the constructor `Node::Node` of
 * Pose_Graph/node.cpp): initialise the graph with the first pose and cloud,
 * then on every tick gate the buffered pose against the last keyframe and,
 * on acceptance, add a vertex, estimate the transform, add the edge and
 * keep the current cloud for the next step.
 *
 * C is the point-cloud type and T the transformation type; the transform
 * estimator is an argument `est: (C, C) -> T`, called as est(current, previous).
 */
module Session {
  import opened Options
  import opened PoseGraph
  import opened KeyframeGate

  /** What the sensor callbacks have buffered when the loop polls: x, y, yaw and the cleaned cloud. */
  datatype Reading<C> = Reading(x: real, y: real, yaw: real, cloud: C)

  /** The pose vector [x, y, yaw] the node builds from a reading. */
  function PoseOf<C>(r: Reading<C>): seq<real>
  {
    [r.x, r.y, r.yaw]
  }

  /** Everything one loop step reads and writes: the graph, `count`, `prev_cld` and `tr_mat`. */
  datatype SessionState<C, T> = SessionState(
    vertices: seq<Vertex>,
    edges: seq<Edge<T>>,
    count: int,
    prevCld: C,
    trMat: Option<T>)

  /**
   * The session invariant: keys 0..n-1 in insertion order, the graph a
   * path, `count` the next key to hand out, and every pose a 3-vector.
   */
  ghost predicate Inv<C, T>(s: SessionState<C, T>) {
    && KeysConsecutive(s.vertices)
    && IsPath(s.vertices, s.edges)
    && s.count == |s.vertices|
    && forall i :: 0 <= i < |s.vertices| ==> |s.vertices[i].data| == 3
  }

  /** The state just before the loop: vertex 0 at the first pose, no edges, the first cloud kept. */
  function Initial<C, T>(r: Reading<C>): (s: SessionState<C, T>)
    ensures Inv(s)
    ensures |s.vertices| == 1 && s.vertices[0].data == PoseOf(r) && s.prevCld == r.cloud
  {
    SessionState([Vertex(0, PoseOf(r))], [], 1, r.cloud, None)
  }

  /** The pose of the most recently added keyframe. */
  function LastPose<C, T>(s: SessionState<C, T>): (p: seq<real>)
    requires Inv(s)
    ensures |p| == 3 && p == s.vertices[|s.vertices| - 1].data
  {
    s.vertices[|s.vertices| - 1].data
  }

  /** One pass of the loop body, as the node means it. */
  function Stepped<C, T>(s: SessionState<C, T>, r: Reading<C>, est: (C, C) -> T, threshold: real): (s': SessionState<C, T>)
    requires Inv(s) && threshold >= 0.0
    ensures Inv(s')
    ensures |s'.vertices| == |s.vertices| || |s'.vertices| == |s.vertices| + 1
  {
    var now := PoseOf(r);
    if Accept(now, LastPose(s), threshold) then
      var vs := s.vertices + [Vertex(s.count, now)];
      var tr := est(r.cloud, s.prevCld);
      AppendKeyframeKeepsPath(s.vertices, s.edges, now, tr);
      var es := s.edges + [Edge(vs[|vs| - 2].key, vs[|vs| - 1].key, tr)];
      SessionState(vs, es, s.count + 1, r.cloud, Some(tr))
    else
      s
  }

  /**
   * An accepted step adds exactly vertex n = |vertices| at the current pose
   * and exactly the edge (n - 1, n) carrying est(current cloud, previous
   * cloud); it keeps the current cloud and increments `count`.
   */
  lemma StepAcceptedAppendsKeyframe<C, T>(s: SessionState<C, T>, r: Reading<C>, est: (C, C) -> T, threshold: real)
    requires Inv(s) && threshold >= 0.0
    requires Accept(PoseOf(r), LastPose(s), threshold)
    ensures var s' := Stepped(s, r, est, threshold);
            var n := |s.vertices|;
            && s'.vertices == s.vertices + [Vertex(n, PoseOf(r))]
            && s'.edges == s.edges + [Edge(n - 1, n, est(r.cloud, s.prevCld))]
            && s'.count == s.count + 1
            && s'.prevCld == r.cloud
            && s'.trMat == Some(est(r.cloud, s.prevCld))
  {
  }

  /** A rejected step leaves the graph, `count`, `prev_cld` and `tr_mat` as they were. */
  lemma StepRejectedChangesNothing<C, T>(s: SessionState<C, T>, r: Reading<C>, est: (C, C) -> T, threshold: real)
    requires Inv(s) && threshold >= 0.0
    requires !Accept(PoseOf(r), LastPose(s), threshold)
    ensures Stepped(s, r, est, threshold) == s
  {
  }

  /**
   * With d the planar distance between the reading and the last keyframe,
   * the step adds a keyframe exactly when d >= threshold; otherwise the
   * graph keeps its size.
   */
  lemma StepGrowsIffFarEnough<C, T>(s: SessionState<C, T>, r: Reading<C>, est: (C, C) -> T, threshold: real, d: real)
    requires Inv(s) && threshold >= 0.0
    requires d >= 0.0 && d * d == SquaredDist(PoseOf(r), LastPose(s))
    ensures var s' := Stepped(s, r, est, threshold);
            (|s'.vertices| == |s.vertices| + 1 <==> d >= threshold)
            && (|s'.vertices| == |s.vertices| <==> d < threshold)
  {
    AcceptIffDistanceAtLeast(PoseOf(r), LastPose(s), threshold, d);
  }

  /** Two readings that differ only in yaw lead to the same graph shape. */
  lemma StepIgnoresYaw<C, T>(s: SessionState<C, T>, r: Reading<C>, yaw': real, est: (C, C) -> T, threshold: real)
    requires Inv(s) && threshold >= 0.0
    ensures |Stepped(s, r, est, threshold).vertices| == |Stepped(s, r.(yaw := yaw'), est, threshold).vertices|
    ensures Stepped(s, r, est, threshold).edges == Stepped(s, r.(yaw := yaw'), est, threshold).edges
  {
  }

  /**
   * From the start pose (0, 0, 0) with threshold 0.5, a reading at (0, 0.3)
   * changes nothing, and a following reading at (0, 0.6) adds vertex 1 and
   * the edge (0, 1) carrying est(that cloud, the first cloud).
   */
  lemma SessionScenario<C, T>(c0: C, c1: C, c2: C, est: (C, C) -> T)
    ensures var s0: SessionState<C, T> := Initial(Reading(0.0, 0.0, 0.0, c0));
            var s1 := Stepped(s0, Reading(0.0, 0.3, 0.0, c1), est, ThresholdDistance);
            var s2 := Stepped(s1, Reading(0.0, 0.6, 0.0, c2), est, ThresholdDistance);
            && s1 == s0
            && |s2.vertices| == 2 && s2.vertices[1] == Vertex(1, [0.0, 0.6, 0.0])
            && s2.edges == [Edge(0, 1, est(c2, c0))]
            && s2.prevCld == c2 && s2.count == 2
  {
  }

  /** The loop over a finite run of polled readings. */
  function Replay<C, T>(s: SessionState<C, T>, rs: seq<Reading<C>>, est: (C, C) -> T, threshold: real): (s': SessionState<C, T>)
    requires Inv(s) && threshold >= 0.0
    ensures Inv(s')
    ensures |s.vertices| <= |s'.vertices| <= |s.vertices| + |rs|
    ensures s'.vertices[..|s.vertices|] == s.vertices
    ensures s'.edges[..|s.edges|] == s.edges
    decreases |rs|
  {
    if rs == [] then s else Replay(Stepped(s, rs[0], est, threshold), rs[1..], est, threshold)
  }

  /**
   * Whatever the readings, the graph built from the first reading and the
   * loop has keys exactly 0..n-1 and n - 1 edges, edge i joining keys i and i + 1.
   */
  lemma {:induction false} RunBuildsKeyedPath<C, T>(first: Reading<C>, rs: seq<Reading<C>>, est: (C, C) -> T)
    ensures var s := Replay(Initial(first), rs, est, ThresholdDistance);
            && 1 <= |s.vertices| <= 1 + |rs|
            && s.vertices[0] == Vertex(0, PoseOf(first))
            && (forall i :: 0 <= i < |s.vertices| ==> s.vertices[i].key == i)
            && |s.edges| == |s.vertices| - 1
            && (forall i :: 0 <= i < |s.edges| ==> s.edges[i].src == i && s.edges[i].obs == i + 1)
  {
    var s0: SessionState<C, T> := Initial(first);
    var s := Replay(s0, rs, est, ThresholdDistance);
    assert s.vertices[..1] == s0.vertices;
    assert s.vertices[0] == s.vertices[..1][0];
    KeyedPathLinksConsecutiveKeys(s.vertices, s.edges);
  }

  /** The node: its graph `gr`, the key counter, the kept cloud and the last transformation. */
  class Node<C, T> {
    const gr: Graph<T>
    var count: int
    var prevCld: C
    var trMat: Option<T>
    const threshold: real

    ghost function State(): SessionState<C, T>
      reads this, gr
    {
      SessionState(gr.vertices, gr.edges, count, prevCld, trMat)
    }

    ghost predicate Valid()
      reads this, gr
    {
      threshold >= 0.0 && Inv(State())
    }

    /** The set-up before the loop: threshold 0.5, origin vertex 0, first cloud kept, `count` 1. */
    constructor (first: Reading<C>)
      ensures Valid() && fresh(gr)
      ensures threshold == ThresholdDistance
      ensures State() == Initial(first)
    {
      count := 1;
      threshold := ThresholdDistance;
      var g := new Graph<T>();
      var currOdom := [first.x, first.y, first.yaw];
      g.InitGraph(0, currOdom);
      gr := g;
      prevCld := first.cloud;
      trMat := None;
    }

    /** One pass of the loop body, in the source's order of effects. */
    method Step(r: Reading<C>, est: (C, C) -> T)
      requires Valid()
      modifies this, gr
      ensures Valid()
      ensures State() == Stepped(old(State()), r, est, threshold)
    {
      var nowOdom := [r.x, r.y, r.yaw];
      var prevOdom := gr.vertices[|gr.vertices| - 1].data;
      if Accept(nowOdom, prevOdom, threshold) {
        gr.AddVertex(count, nowOdom);
        var tr := est(r.cloud, prevCld);
        trMat := Some(tr);
        gr.AddEdge(tr);
        prevCld := r.cloud;
        count := count + 1;
      }
    }

    /** The loop, run over a finite sequence of polled readings. */
    method Run(rs: seq<Reading<C>>, est: (C, C) -> T)
      requires Valid()
      modifies this, gr
      ensures Valid()
      ensures State() == Replay(old(State()), rs, est, threshold)
    {
      var i := 0;
      while i < |rs|
        invariant 0 <= i <= |rs|
        invariant Valid()
        invariant Replay(State(), rs[i..], est, threshold) == Replay(old(State()), rs, est, threshold)
      {
        assert rs[i..][0] == rs[i] && rs[i..][1..] == rs[i + 1..];
        Step(rs[i], est);
        i := i + 1;
      }
    }
  }
}
