# Pose graph node: keyframe gate and incremental pose-graph store

This project models the core of the ROS node in `Pose_Graph/node.cpp`: the
pose graph it builds while a robot moves, and the loop step that decides
when a new keyframe enters that graph.

- **Pose-graph store** (`PoseGraph`, file `pose_graph.dfy`). The graph `gr`
  is a class `Graph<T>` with a `seq<Vertex>` and a `seq<Edge<T>>` that
  `InitGraph`, `AddVertex` and `AddEdge` append to. A vertex is the record
  `pose_` (an integer key and the pose vector `[x, y, yaw]`). An edge is the
  record `constraints_` (`src`, `obs` and a 4x4 transformation, kept as the
  opaque type parameter `T`). The predicates `KeysConsecutive` and `IsPath`
  state the store's invariant: keys are 0, 1, 2, ... in insertion order,
  and edge i joins vertex i to vertex i + 1, so there is one edge fewer
  than vertices.
- **Keyframe gate** (`KeyframeGate`, file `keyframe_gate.dfy`).
  `calculateDist` becomes `SquaredDist`, the squared planar distance over
  x and y. `Accept` compares it with the squared threshold. Coordinates are
  reals. Comparing `dx*dx + dy*dy >= t*t` with `t >= 0` is this model's
  reading of the square root at lines 183-184 and the `>=` at line 254.
  `AcceptIffDistanceAtLeast` proves the two agree for the true distance `d`.
  The threshold is 0.5 and the boundary is inclusive.
- **Session loop** (`Session`, file `session.dfy`). The node is a class
  `Node<C, T>` holding the graph, `count`, `prev_cld` and `tr_mat`. `C` is
  the point-cloud type. The transform estimator `estTrans` is an argument
  `est: (C, C) -> T`, called as `est(current cloud, previous cloud)`. The
  constructor does the set-up before the loop. `Step` is one pass of the
  loop body, in the source's order: add vertex `count`, estimate the
  transform, add the edge, replace `prev_cld`, increment `count`. `Run` is
  the loop over a finite sequence of polled readings. The pure functions
  `Stepped` and `Replay` specify `Step` and `Run`, and the lemmas about
  them state what the loop guarantees.
- **Code as written** (`AsWritten`, file `as_written.dfy`). This module
  models the lines where the source departs from its evident intent. Each
  one comes with a lemma that exhibits the difference (see Findings).

The model follows the intended behaviour in three places where the code
does something else:
- The gate compares the current reading with the pose of the last added
  vertex. The code passes the never-filled `now_odom` (lines 244, 251, 256)
  and reads past the last vertex (line 250).
- The current pose is a fresh `[x, y, yaw]` on every tick. The code keeps
  appending to `curr_odom` (lines 245-247).
- The new edge joins the two most recently added vertices. The code uses
  the past-the-end vertex index (lines 203, 205, 206).

The code has no error results: `addEdge` is only ever called right after
`addVertex`, and `estTrans` reports no failure. The 5000-point sampling cap
(line 140) sits inside the opaque estimator `est`. `AddEdge` requires two
vertices, and nothing in the model fails.

## Model

| member | source | states |
|---|---|---|
| `PoseGraph.Graph.constructor` | Pose_Graph/node.cpp:79 | the node's graph starts with no vertices and no edges |
| `PoseGraph.Graph.InitGraph` | Pose_Graph/node.cpp:210-215 | appends exactly one vertex with key `v` and pose `odom` and no edge; on an empty graph it leaves exactly that vertex and no edges |
| `PoseGraph.Graph.AddVertex` | Pose_Graph/node.cpp:189-195 | appends exactly one vertex with key `v` and pose `odom`; existing vertices and all edges are unchanged |
| `PoseGraph.Graph.AddEdge` | Pose_Graph/node.cpp:198-207 | appends exactly one edge carrying `tr`, from the key of the second-to-last vertex to the key of the last vertex; vertices are unchanged (intended reading of lines 203-206) |
| `PoseGraph.KeyedPathLinksConsecutiveKeys` | Pose_Graph/node.cpp:256-262 | on a graph with consecutive keys that is a path, there is at least one vertex and one edge fewer than vertices, edge i joins keys i and i + 1, and keys strictly increase |
| `PoseGraph.AppendKeyframeKeepsPath` | Pose_Graph/node.cpp:256-260 | adding vertex n and then an edge between the two most recent vertices keeps the keys consecutive and the graph a path, and the new edge is (n - 1, n) |
| `KeyframeGate.SquaredDist` | Pose_Graph/node.cpp:181-186 | the squared planar distance from index 0 and 1 of the two pose vectors is never negative |
| `KeyframeGate.AcceptIffDistanceAtLeast` | Pose_Graph/node.cpp:183-184 | for the planar distance d (d >= 0 with d * d the squared distance), the gate accepts if and only if d >= threshold; equality accepts, anything shorter rejects |
| `KeyframeGate.AcceptIgnoresYaw` | Pose_Graph/node.cpp:181-186 | poses that agree on x and y get the same gate decision, whatever their yaw |
| `KeyframeGate.GateScenario` | Pose_Graph/node.cpp:254 | with threshold 0.5 and the last keyframe at (0, 0, 0): (0, 0.3) is rejected, (0, 0.6) accepted, and (0.3, 0.4), at exactly 0.5, accepted |
| `Session.Initial` | Pose_Graph/node.cpp:219-235 | the state before the loop satisfies the session invariant, with exactly one vertex holding the first pose and the first cloud kept |
| `Session.LastPose` | Pose_Graph/node.cpp:248-250 | the gate's reference pose is the three-entry pose of the last added vertex (intended reading of line 250) |
| `Session.Stepped` | Pose_Graph/node.cpp:243-263 | one loop step keeps the session invariant (consecutive keys, path shape, `count` equal to the number of vertices, 3-entry poses) and adds at most one vertex |
| `Session.StepAcceptedAppendsKeyframe` | Pose_Graph/node.cpp:255-262 | an accepted step appends exactly vertex n at the current pose and edge (n - 1, n) carrying est(current cloud, previous cloud); `prev_cld` becomes the current cloud, `tr_mat` that transform, and `count` goes up by one |
| `Session.StepRejectedChangesNothing` | Pose_Graph/node.cpp:254-263 | a rejected step leaves the graph, `count`, `prev_cld` and `tr_mat` unchanged |
| `Session.StepGrowsIffFarEnough` | Pose_Graph/node.cpp:251-254 | a step adds a vertex if and only if the planar distance from the last keyframe is at least the threshold, and otherwise keeps the vertex count |
| `Session.StepIgnoresYaw` | Pose_Graph/node.cpp:183-184 | two readings that differ only in yaw produce the same number of vertices and the same edges |
| `Session.SessionScenario` | Pose_Graph/node.cpp:243-262 | from the start pose (0, 0, 0) with threshold 0.5, a reading at (0, 0.3) changes nothing; a following reading at (0, 0.6) adds vertex 1 and the edge (0, 1) carrying est(current cloud, first cloud), keeps that cloud and sets `count` to 2 |
| `Session.Replay` | Pose_Graph/node.cpp:237-266 | running the loop over any readings keeps the session invariant, adds at most one vertex per reading, and never changes or removes an earlier vertex or edge |
| `Session.RunBuildsKeyedPath` | Pose_Graph/node.cpp:219-266 | from the first reading and any later readings, the graph has vertex 0 at the first pose, keys exactly 0..n-1 in order, n - 1 edges, and edge i joining keys i and i + 1 |
| `Session.Node.constructor` | Pose_Graph/node.cpp:218-235 | the set-up before the loop sets threshold 0.5, a graph with only vertex 0 at the first pose, `prev_cld` the first cloud and `count` 1, and the node invariant holds |
| `Session.Node.Step` | Pose_Graph/node.cpp:243-263 | one pass of the loop body keeps the node invariant and leaves exactly the state `Stepped` gives for the old state and the reading |
| `Session.Node.Run` | Pose_Graph/node.cpp:237-266 | the loop over a sequence of readings keeps the node invariant and ends in the state `Replay` gives |
| `AsWritten.GateDistanceAsWritten` | Pose_Graph/node.cpp:181-186 | `calculateDist` as written is defined exactly when both vectors have at least two entries, and then equals the squared distance |
| `AsWritten.NowOdomNeverFilled` | Pose_Graph/node.cpp:244-256 | as written, the distance at line 251 reads past the end of the empty `now_odom`, and the vertex added at line 256 does not hold the current pose |
| `AsWritten.CurrOdomKeepsGrowing` | Pose_Graph/node.cpp:245-247 | as written, `curr_odom` gains three entries per tick and keeps its first ones, so its x and y stay those of the first pose |
| `AsWritten.EndIteratorNamesNoVertex` | Pose_Graph/node.cpp:248-250 | as written, `*vertex_End` is one past the last index and names no vertex; the last added vertex is at the index before it |
| `AsWritten.AddEdgeAsWritten` | Pose_Graph/node.cpp:200-206 | as written on the vector-backed store, `addEdge` adds one default-constructed vertex (empty pose, unspecified key) and one edge starting at the last added vertex, and keeps everything already there |
| `AsWritten.AddEdgeAsWrittenBreaksPath` | Pose_Graph/node.cpp:256-260 | as written, an accepted step on any keyed path adds two vertices and one edge, so the graph is no longer a path, and the new edge joins the new keyframe to the extra vertex, whatever that vertex's key |
| `AsWritten.FirstAcceptAsWritten` | Pose_Graph/node.cpp:200-206 | as written, the first accepted step leaves three vertices (the third with an empty pose and an unspecified key k) and the single edge (1, k) |

## Left out

- ROS subscription and callback wiring (`odomSub`, `cloudSub`, `ros::spinOnce`, `ros::ok`, `main`) is message transport. The loop instead takes a sequence of readings, each holding the x, y, yaw and cleaned cloud buffered when it polls (lines 129-132, 174-177, 237, 265, 271-284).
- `odomCallbk` turns a quaternion into roll, pitch and yaw with floating-point numerics in the external `tf` library. A reading carries yaw directly (lines 119-126).
- `cloudCallbk` message conversion and NaN removal are thin wrappers over PCL. The cloud is the opaque type `C` (lines 167-173).
- `randomSample` and `estTrans` are randomised PCL sampling and SVD-based float registration. They are the opaque estimator argument `est` (lines 134-165).
- The final `boost::write_graphviz` export is output formatting by an external library (line 267).
- `KeyframeGate.SquaredDist`: does not model the float rounding of `pow` and `sqrt`, or the narrowing of the double distance to `float`; the model uses exact reals.
- `Session.Node.constructor`: takes the first reading as an argument. The source reads `pose_x`, `pose_y`, `yaw` and `curr_pc` before any callback has run (lines 228-235).
- `count` is a C++ `int`; its 32-bit overflow after 2^31 keyframes is not modelled, and keys are unbounded integers.
- The boost graph is undirected. The model keeps each edge's `src` and `obs` as recorded and does not model adjacency queries, which the node never makes.
- `Session.Node.Run`: models a finite prefix of the loop; the loop itself only stops on shutdown.

## Findings

| source | as written | input that shows it | evidently intended | confidence | as-written member | corrected member |
|---|---|---|---|---|---|---|
| Pose_Graph/node.cpp:244-256 | `now_odom` is declared empty and never filled, yet the gate (line 251) and `addVertex` (line 256) use it | any tick: `now_odom[0]` reads past the end of an empty vector, and the new vertex gets an empty pose | gate and store the current pose `[pose_x, pose_y, yaw]` | high (not executed) | `AsWritten.NowOdomNeverFilled` | `Session.StepAcceptedAppendsKeyframe` |
| Pose_Graph/node.cpp:245-247 | the reading is pushed onto `curr_odom`, which grows by three entries per tick and keeps the first pose at indices 0-2 | after one tick from the first pose p, `curr_odom` is p followed by the new reading (6 entries) | a fresh three-entry current pose per tick | high (not executed) | `AsWritten.CurrOdomKeepsGrowing` | `Session.StepGrowsIffFarEnough` |
| Pose_Graph/node.cpp:248-250 | `prev_odom = gr[*vertex_End].data` indexes one past the last vertex | a graph with only vertex 0: the lookup is index 1, which does not exist | the pose of the last added vertex | high (not executed) | `AsWritten.EndIteratorNamesNoVertex` | `Session.LastPose` |
| Pose_Graph/node.cpp:200-206 | `add_edge(*(vertex_End-1), *vertex_End)` uses the past-the-end index; the vector-backed store grows to hold it, so the edge joins the last vertex to a new default-constructed one (empty pose, unspecified key) | the first accepted step: vertices 0, 1 and a third with an unspecified key k, and edge (1, k) | an edge from the second-to-last to the last added vertex | medium (not executed; depends on boost's growth rule for vector-backed vertex storage) | `AsWritten.AddEdgeAsWrittenBreaksPath` | `PoseGraph.AppendKeyframeKeepsPath` |
