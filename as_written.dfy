/**
 * Four places where the loop of `Node::Node` and `Node::addEdge` in
 * Pose_Graph/node.cpp do not do what their comments and the surrounding
 * code evidently intend. Each definition here models the lines as written;
 * the lemma beside it exhibits the discrepancy. The rest of the model uses
 * the intended behaviour (Session.Stepped, PoseGraph.Graph.AddEdge).
 */
module AsWritten {
  import opened Options
  import opened PoseGraph
  import opened KeyframeGate
  import opened Session

  /**
   * Element i of a std::vector: None stands for an index past the end,
   * where the unchecked `operator[]` has undefined behaviour.
   */
  function At<X>(v: seq<X>, i: int): (r: Option<X>)
    ensures r.Some? <==> 0 <= i < |v|
    ensures r.Some? ==> r.value == v[i]
  {
    if 0 <= i < |v| then Some(v[i]) else None
  }

  /** `calculateDist` as written, on vectors of any length (squared, like the gate). */
  function GateDistanceAsWritten(curr: seq<real>, prev: seq<real>): (d: Option<real>)
    ensures d.Some? <==> |curr| >= 2 && |prev| >= 2
    ensures d.Some? ==> d.value == SquaredDist(curr, prev)
  {
    match (At(curr, 0), At(curr, 1), At(prev, 0), At(prev, 1))
    case (Some(cx), Some(cy), Some(px), Some(py)) =>
      Some((cx - px) * (cx - px) + (cy - py) * (cy - py))
    case _ => None
  }

  /** The loop's pose vectors after lines 244-247: `curr_odom` and `now_odom`. */
  datatype PoseLocals = PoseLocals(currOdom: seq<real>, nowOdom: seq<real>)

  /** Lines 244-247 as written: `now_odom` is declared empty, the reading is pushed onto `curr_odom`. */
  function PoseLocalsAsWritten<C>(currOdom: seq<real>, r: Reading<C>): PoseLocals
  {
    PoseLocals(currOdom + [r.x, r.y, r.yaw], [])
  }

  /**
   * Every tick, as written, the gate at line 251 indexes the empty `now_odom`
   * and line 256 stores an empty pose in the new vertex, whatever was read.
   */
  lemma NowOdomNeverFilled<C>(currOdom: seq<real>, prevOdom: seq<real>, r: Reading<C>)
    ensures var l := PoseLocalsAsWritten(currOdom, r);
            && GateDistanceAsWritten(l.nowOdom, prevOdom) == None
            && l.nowOdom != PoseOf(r)
  {
  }

  /** `curr_odom` after the loop has run over the readings `rs`. */
  function CurrOdomAfter<C>(currOdom: seq<real>, rs: seq<Reading<C>>): seq<real>
    decreases |rs|
  {
    if rs == [] then currOdom else CurrOdomAfter(PoseLocalsAsWritten(currOdom, rs[0]).currOdom, rs[1..])
  }

  /**
   * `curr_odom` gains three entries per tick and never drops the earlier
   * ones, so its x and y (indices 0 and 1) stay those of the first pose.
   */
  lemma {:induction false} CurrOdomKeepsGrowing<C>(currOdom: seq<real>, rs: seq<Reading<C>>)
    ensures |CurrOdomAfter(currOdom, rs)| == |currOdom| + 3 * |rs|
    ensures CurrOdomAfter(currOdom, rs)[..|currOdom|] == currOdom
    decreases |rs|
  {
    if rs != [] {
      var next := PoseLocalsAsWritten(currOdom, rs[0]).currOdom;
      CurrOdomKeepsGrowing(next, rs[1..]);
      assert CurrOdomAfter(currOdom, rs)[..|currOdom|] == CurrOdomAfter(currOdom, rs)[..|next|][..|currOdom|];
    }
  }

  /**
   * Line 250 as written: `*vertex_End` is the index one past the last vertex,
   * which names no vertex; the last added vertex is at index |vs| - 1.
   */
  lemma EndIteratorNamesNoVertex(vs: seq<Vertex>)
    requires |vs| >= 1
    ensures At(vs, |vs|) == None
    ensures At(vs, |vs| - 1) == Some(vs[|vs| - 1])
  {
  }

  /**
   * Lines 200-206 as written, on the vector-backed vertex store: `*vertex_End`
   * is the index |vs|; `add_edge` with a vertex index not yet in the store
   * enlarges the store to that index, and the edge joins the old last vertex
   * to the new one. The new vertex is default-constructed: its pose is empty
   * and its key `k` is unspecified, so `k` is an argument here.
   */
  function AddEdgeAsWritten<T>(vs: seq<Vertex>, es: seq<Edge<T>>, tr: T, k: int): (g: (seq<Vertex>, seq<Edge<T>>))
    requires |vs| >= 1
    ensures |g.0| == |vs| + 1 && g.0[..|vs|] == vs
    ensures |g.1| == |es| + 1 && g.1[..|es|] == es
    ensures g.1[|es|].src == vs[|vs| - 1].key && g.0[|vs|].data == []
  {
    var end := |vs|;
    var grown := vs + [Vertex(k, [])];
    (grown, es + [Edge(grown[end - 1].key, grown[end].key, tr)])
  }

  /**
   * On every keyed path, an accepted step as written (addVertex, then
   * addEdge) adds two vertices and one edge, whatever key the extra vertex
   * has: the graph is no longer a path, and the new edge starts at the new
   * keyframe and ends at the extra vertex.
   */
  lemma AddEdgeAsWrittenBreaksPath<T>(vs: seq<Vertex>, es: seq<Edge<T>>, pose: seq<real>, tr: T, k: int)
    requires KeysConsecutive(vs) && IsPath(vs, es)
    ensures var g := AddEdgeAsWritten(vs + [Vertex(|vs|, pose)], es, tr, k);
            && !IsPath(g.0, g.1)
            && |g.0| == |vs| + 2
            && g.1[|es|] == Edge(|vs|, k, tr)
  {
  }

  /**
   * The first accepted step as written, from the origin vertex alone: three
   * vertices, the third with an empty pose, and the single edge (1, k).
   */
  lemma FirstAcceptAsWritten<T>(pose0: seq<real>, pose1: seq<real>, tr: T, k: int)
    ensures var g := AddEdgeAsWritten([Vertex(0, pose0), Vertex(1, pose1)], [], tr, k);
            g.0 == [Vertex(0, pose0), Vertex(1, pose1), Vertex(k, [])]
            && g.1 == [Edge(1, k, tr)]
  {
  }
}
