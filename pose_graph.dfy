/**
 * The pose-graph store of Pose_Graph/node.cpp: an append-only graph whose
 * vertices carry an integer key and a pose vector [x, y, yaw], and whose
 * edges carry the keys of their two ends and a 4x4 transformation, kept
 * here as the opaque type parameter T.
 */
module PoseGraph {

  /** Vertex property record `pose_`: a key and the pose vector `data`. */
  datatype Vertex = Vertex(key: int, data: seq<real>)

  /** Edge property record `constraints_`: source key, observed key, transformation. */
  datatype Edge<T> = Edge(src: int, obs: int, transformation: T)

  /** The keys are 0, 1, 2, ... in insertion order. */
  ghost predicate KeysConsecutive(vs: seq<Vertex>) {
    forall i :: 0 <= i < |vs| ==> vs[i].key == i
  }

  /**
   * The graph is a simple path in insertion order: one edge fewer than
   * vertices, and edge i joins vertex i to vertex i + 1.
   */
  ghost predicate IsPath<T>(vs: seq<Vertex>, es: seq<Edge<T>>) {
    && |es| + 1 == |vs|
    && forall i :: 0 <= i < |es| ==> es[i].src == vs[i].key && es[i].obs == vs[i + 1].key
  }

  /** A keyed path links only consecutive keys, and its keys never repeat. */
  lemma KeyedPathLinksConsecutiveKeys<T>(vs: seq<Vertex>, es: seq<Edge<T>>)
    requires KeysConsecutive(vs) && IsPath(vs, es)
    ensures |vs| >= 1 && |es| == |vs| - 1
    ensures forall i :: 0 <= i < |es| ==> es[i].src == i && es[i].obs == i + 1
    ensures forall i, j :: 0 <= i < j < |vs| ==> vs[i].key < vs[j].key
  {
    forall i | 0 <= i < |es|
      ensures es[i].src == i && es[i].obs == i + 1
    {
      assert vs[i].key == i && vs[i + 1].key == i + 1;
    }
  }

  /**
   * One accepted keyframe: append vertex |vs| and an edge between the two
   * most recently added vertices. Keys stay consecutive and the graph stays
   * a path, and every earlier vertex and edge is kept as it was.
   */
  lemma AppendKeyframeKeepsPath<T>(vs: seq<Vertex>, es: seq<Edge<T>>, pose: seq<real>, tr: T)
    requires KeysConsecutive(vs) && IsPath(vs, es)
    ensures var vs' := vs + [Vertex(|vs|, pose)];
            var es' := es + [Edge(vs'[|vs'| - 2].key, vs'[|vs'| - 1].key, tr)];
            KeysConsecutive(vs') && IsPath(vs', es') && es'[|es|] == Edge(|vs| - 1, |vs|, tr)
  {
  }

  /** The boost adjacency list `gr`, restricted to what the node stores in it. */
  class Graph<T> {
    var vertices: seq<Vertex>
    var edges: seq<Edge<T>>

    /** A default-constructed graph has no vertices and no edges. */
    constructor ()
      ensures vertices == [] && edges == []
    {
      vertices := [];
      edges := [];
    }

    /** Adds the origin keyframe; on an empty graph this leaves exactly that one vertex. */
    method InitGraph(v: int, odom: seq<real>)
      modifies this
      ensures vertices == old(vertices) + [Vertex(v, odom)]
      ensures edges == old(edges)
      ensures old(vertices) == [] && old(edges) == [] ==>
                vertices == [Vertex(v, odom)] && edges == []
    {
      vertices := vertices + [Vertex(v, odom)];
    }

    /** Appends one vertex with the given key and pose; nothing else changes. */
    method AddVertex(v: int, odom: seq<real>)
      modifies this
      ensures vertices == old(vertices) + [Vertex(v, odom)]
      ensures edges == old(edges)
    {
      vertices := vertices + [Vertex(v, odom)];
    }

    /**
     * Appends one edge carrying `tr` from the second-to-last to the last
     * added vertex; the vertices do not change.
     */
    method AddEdge(tr: T)
      requires |vertices| >= 2
      modifies this
      ensures vertices == old(vertices)
      ensures edges == old(edges) + [Edge(vertices[|vertices| - 2].key, vertices[|vertices| - 1].key, tr)]
    {
      var prev := vertices[|vertices| - 2];
      var last := vertices[|vertices| - 1];
      edges := edges + [Edge(prev.key, last.key, tr)];
    }
  }
}
