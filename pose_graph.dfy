/** The bookkeeping of PoseOptimizer as values: the key counters, the four
    keyed tables (poses, stamps, keyframe scans, edge endpoints), the cached
    latest pose and the g2o graph the tables shadow. Each operation of the
    optimiser is a function from the old graph to the new one; the class in
    module Optimizer is proved against these functions. */
module PoseGraph {
  import opened Geometry

  datatype Option<T> = None | Some(value: T)

  /** An EdgeSE3 as g2o holds it. */
  datatype Constraint = Constraint(v1: nat, v2: nat, measurement: SE3, information: Mat6)

  /** The g2o SparseOptimizer's graph: vertex estimates, the fixed vertices and the edges, all by id. */
  datatype Backend = Backend(estimates: map<nat, SE3>, fixed: set<nat>, constraints: map<nat, Constraint>)

  /** What g2o's optimize() reports: the iteration count it returns, stored in a signed int
      (negative when it could not start), and the estimates it leaves for the vertices it was
      free to move. */
  datatype OptimizerRun = OptimizerRun(iterations: int, estimates: map<nat, SE3>)

  /** The g2o calls whose outcome the core acts on. */
  datatype G2o = G2o(
    /** SparseOptimizer::addEdge: whether the edge is accepted. */
    addEdge: (Backend, Constraint) -> bool,
    /** SparseOptimizer::optimize(iterations) with Levenberg-Marquardt. */
    optimize: (Backend, nat) -> OptimizerRun)

  datatype Graph = Graph(
    vertexKey: nat,                  // curr_vertex_key_
    edgeKey: nat,                    // curr_edge_key_
    poses: map<nat, Pose6DOF>,       // graph_poses_
    stamps: map<nat, Time>,          // graph_stamps_
    scans: map<nat, Cloud>,          // graph_scans_
    edges: map<nat, (nat, nat)>,     // graph_edges_
    latest: Pose6DOF,                // latest_pose
    backend: Backend)                // *optimizer_

  /** The optimiser iteration cap (pose_opt_iters). */
  const PoseOptIters: nat := 10

  /** The keys of m are exactly 0 .. n-1. */
  ghost predicate KeysBelow<V>(m: map<nat, V>, n: nat) {
    forall k: nat :: k in m <==> k < n
  }

  /** A set holding exactly 0 .. n-1 has n elements. */
  lemma {:induction false} BelowSize(s: set<nat>, n: nat)
    requires forall k: nat :: k in s <==> k < n
    ensures |s| == n
  {
    if n > 0 {
      var s' := s - {n - 1};
      BelowSize(s', n - 1);
      assert s == s' + {n - 1};
    }
  }

  /** Inserting key n into a map keyed by 0 .. n-1 gives a map keyed by 0 .. n. */
  lemma KeysBelowExtend<V>(m: map<nat, V>, n: nat, v: V)
    requires KeysBelow(m, n)
    ensures KeysBelow(m[n := v], n + 1)
  {
  }

  /** std::map::insert: the pair is added only when the key is absent; an existing entry is kept. */
  function Insert<K, V>(m: map<K, V>, k: K, v: V): (r: map<K, V>)
    ensures r.Keys == m.Keys + {k}
    ensures k !in m ==> r == m[k := v]
    ensures k in m ==> r == m
  {
    if k in m then m else m[k := v]
  }

  /** The invariant every reachable graph keeps. */
  ghost predicate Valid(g: Graph) {
    && KeysBelow(g.poses, g.vertexKey)
    && KeysBelow(g.backend.estimates, g.vertexKey)
    && (forall k :: k in g.scans ==> k < g.vertexKey)
    // vertex and edge stamps share one key space
    && (forall k: nat :: k in g.stamps <==> k < g.vertexKey || k < g.edgeKey)
    // vertex 0, and only it, is the gauge anchor
    && g.backend.fixed == (if g.vertexKey == 0 then {} else {0})
    && KeysBelow(g.backend.constraints, g.edgeKey)
    && (forall k :: k in g.backend.constraints ==>
          g.backend.constraints[k].v1 < g.vertexKey && g.backend.constraints[k].v2 < g.vertexKey)
    && (forall k: nat :: k < g.edgeKey ==> k in g.edges)
  }

  /** graph_edges_ holds exactly the endpoints of the edges g2o holds. True of every graph
      the constructor and the graph operations build; a repeated init() can break it. */
  ghost predicate EdgesMirrored(g: Graph)
    requires Valid(g)
  {
    && KeysBelow(g.edges, g.edgeKey)
    && forall k :: k in g.edges ==>
         g.edges[k] == (g.backend.constraints[k].v1, g.backend.constraints[k].v2)
  }

  /** Every edge key below the counter names two vertices that have a pose: what the marker
      loop needs, since it looks the endpoints up with map::at. */
  ghost predicate EdgesResolved(g: Graph) {
    forall i: nat :: i < g.edgeKey ==> i in g.edges && g.edges[i].0 in g.poses && g.edges[i].1 in g.poses
  }

  lemma MirroredEdgesResolve(g: Graph)
    requires Valid(g) && EdgesMirrored(g)
    ensures EdgesResolved(g)
  {
  }

  /** The graph right after construction. */
  function Initial(math: PoseMath): (g: Graph)
    ensures Valid(g) && EdgesMirrored(g)
    ensures g.vertexKey == 0 && g.edgeKey == 0 && g.latest == math.defaultPose
  {
    Graph(0, 0, map[], map[], map[], map[], math.defaultPose, Backend(map[], {}, map[]))
  }

  /** init(): both counters restart at 0, the stamp, scan and pose tables are cleared and a new,
      empty g2o graph replaces the old one; graph_edges_ and latest_pose are not touched. */
  function Init(g: Graph): (r: Graph)
    ensures Valid(r)
    ensures r.vertexKey == 0 && r.edgeKey == 0
    ensures r.stamps == map[] && r.scans == map[] && r.poses == map[]
    ensures r.backend.estimates == map[] && r.backend.constraints == map[]
    ensures r.edges == g.edges && r.latest == g.latest
  {
    g.(vertexKey := 0, edgeKey := 0, stamps := map[], scans := map[], poses := map[],
       backend := Backend(map[], {}, map[]))
  }

  /** g2o's addVertex: refused when the id is taken, otherwise the vertex is added with its flag. */
  function AddVertexTo(b: Backend, key: nat, estimate: SE3, fixed: bool): Backend {
    if key in b.estimates then b
    else b.(estimates := b.estimates[key := estimate],
            fixed := if fixed then b.fixed + {key} else b.fixed)
  }

  /** addNewVertex: the new vertex takes the next vertex key; it is fixed when it is vertex 0,
      and it keeps the scan when it is a keyframe. */
  function AddVertex(math: PoseMath, g: Graph, scan: Cloud, pose: Pose6DOF, isKeyframe: bool): (r: Graph)
    requires Valid(g)
    ensures Valid(r)
    ensures r.vertexKey == g.vertexKey + 1 && r.edgeKey == g.edgeKey
    ensures g.vertexKey in r.backend.fixed <==> g.vertexKey == 0
    ensures r.backend.fixed == g.backend.fixed + (if g.vertexKey == 0 then {0} else {})
    ensures r.backend.estimates == g.backend.estimates[g.vertexKey := math.toSE3(pose.rot, pose.pos)]
    ensures r.backend.constraints == g.backend.constraints
    ensures g.vertexKey in r.scans <==> isKeyframe
    ensures r.scans == if isKeyframe then g.scans[g.vertexKey := scan] else g.scans
    // the key is fresh, so no existing pose is overwritten
    ensures g.vertexKey !in g.poses && r.poses == g.poses[g.vertexKey := pose]
    // an edge stamp that already holds this key keeps it
    ensures r.stamps == if g.vertexKey < g.edgeKey then g.stamps else g.stamps[g.vertexKey := pose.stamp]
    ensures r.edges == g.edges && r.latest == g.latest
  {
    var key := g.vertexKey;
    KeysBelowExtend(g.poses, key, pose);
    KeysBelowExtend(g.backend.estimates, key, math.toSE3(pose.rot, pose.pos));
    g.(vertexKey := key + 1,
       scans := if isKeyframe then Insert(g.scans, key, scan) else g.scans,
       backend := AddVertexTo(g.backend, key, math.toSE3(pose.rot, pose.pos), key == 0),
       stamps := Insert(g.stamps, key, pose.stamp),
       poses := Insert(g.poses, key, pose))
  }

  /** The measurement addNewEdge stores: the transform from v1's current estimate to v2's,
      converted to a Pose6DOF and back. */
  function EdgeMeasurement(math: PoseMath, b: Backend, v1: nat, v2: nat): SE3
    requires v1 in b.estimates && v2 in b.estimates
  {
    var relative := math.toPose(math.compose(math.inverse(b.estimates[v1]), b.estimates[v2]));
    math.toSE3(relative.rot, relative.pos)
  }

  /** addNewEdge, given whether g2o's addEdge accepts the edge. A refused edge changes nothing.
      The information matrix is the inverse of the given covariance; the given position and
      rotation are not used. */
  function AddEdge(math: PoseMath, g: Graph, pose: Pose6DOF, v1: nat, v2: nat, accepted: bool): (r: Graph)
    requires Valid(g)
    requires v1 < g.vertexKey && v2 < g.vertexKey
    ensures Valid(r)
    ensures !accepted ==> r == g
    ensures accepted ==> r.edgeKey == g.edgeKey + 1
    ensures accepted ==> r.backend.constraints == g.backend.constraints[g.edgeKey :=
              Constraint(v1, v2, EdgeMeasurement(math, g.backend, v1, v2), math.invert(pose.cov))]
    ensures accepted ==> r.edges == if g.edgeKey in g.edges then g.edges else g.edges[g.edgeKey := (v1, v2)]
    // the edge stamp is dropped when a vertex stamp already holds the key
    ensures accepted ==> r.stamps == if g.edgeKey < g.vertexKey then g.stamps else g.stamps[g.edgeKey := pose.stamp]
    ensures r.vertexKey == g.vertexKey && r.poses == g.poses && r.scans == g.scans && r.latest == g.latest
    ensures r.backend.estimates == g.backend.estimates && r.backend.fixed == g.backend.fixed
  {
    var key := g.edgeKey;
    var c := Constraint(v1, v2, EdgeMeasurement(math, g.backend, v1, v2), math.invert(pose.cov));
    if !accepted then g
    else
      KeysBelowExtend(g.backend.constraints, key, c);
      g.(edgeKey := key + 1,
         stamps := Insert(g.stamps, key, pose.stamp),
         edges := Insert(g.edges, key, (v1, v2)),
         backend := g.backend.(constraints := g.backend.constraints[key := c]))
  }

  /** An accepted edge keeps graph_edges_ mirroring g2o's edges, with the new entry holding its endpoints. */
  lemma AddEdgeKeepsMirrored(math: PoseMath, g: Graph, pose: Pose6DOF, v1: nat, v2: nat)
    requires Valid(g) && EdgesMirrored(g)
    requires v1 < g.vertexKey && v2 < g.vertexKey
    ensures var r := AddEdge(math, g, pose, v1, v2, true);
      EdgesMirrored(r) && r.edges[g.edgeKey] == (v1, v2)
  {
  }

  /** The estimates after a run: a fixed vertex, or one the run gives nothing for, keeps its estimate. */
  function Updated(b: Backend, proposed: map<nat, SE3>): map<nat, SE3> {
    map k | k in b.estimates :: if k in b.fixed || k !in proposed then b.estimates[k] else proposed[k]
  }

  /** optimizeGraph: succeeds exactly when the count g2o returns is non-zero, a negative count
      (g2o could not start) included; only then are the estimates of the free vertices replaced. */
  function Optimize(g: Graph, run: OptimizerRun): (r: (Graph, bool))
    requires Valid(g)
    ensures Valid(r.0)
    ensures r.1 <==> run.iterations != 0
    ensures !r.1 ==> r.0 == g
    ensures r.0 == g.(backend := g.backend.(estimates := r.0.backend.estimates))
    ensures r.0.backend.estimates.Keys == g.backend.estimates.Keys
    ensures forall k :: k in g.backend.fixed ==> r.0.backend.estimates[k] == g.backend.estimates[k]
    ensures r.1 ==> forall k :: k in g.backend.estimates && k !in g.backend.fixed && k in run.estimates ==>
              r.0.backend.estimates[k] == run.estimates[k]
    ensures forall k :: k in g.backend.estimates && k !in run.estimates ==>
              r.0.backend.estimates[k] == g.backend.estimates[k]
  {
    if run.iterations == 0 then (g, false)
    else (g.(backend := g.backend.(estimates := Updated(g.backend, run.estimates))), true)
  }

  /** The pose refineVertices stores for an estimate: the estimate as a Pose6DOF, position negated. */
  function RefinedPose(math: PoseMath, estimate: SE3): (p: Pose6DOF)
    ensures p.pos.Plus(math.toPose(estimate).pos) == Vec3(0.0, 0.0, 0.0)
    ensures p.rot == math.toPose(estimate).rot
    ensures p.stamp == math.toPose(estimate).stamp && p.cov == math.toPose(estimate).cov
  {
    math.toPose(estimate).WithNegatedPosition()
  }

  /** refineVertices: every pose entry is overwritten from its vertex's estimate, and the latest
      pose becomes the entry of the highest key. Nothing else changes. */
  function Refine(math: PoseMath, g: Graph): (r: Graph)
    requires Valid(g)
    ensures Valid(r)
    ensures r.poses.Keys == g.poses.Keys
    ensures forall k :: k in r.poses ==> r.poses[k] == RefinedPose(math, g.backend.estimates[k])
    ensures g.vertexKey > 0 ==> r.latest == r.poses[g.vertexKey - 1]
    ensures g.vertexKey == 0 ==> r.latest == g.latest
    ensures r == g.(poses := r.poses, latest := r.latest)
  {
    var poses := map k | k in g.poses :: RefinedPose(math, g.backend.estimates[k]);
    g.(poses := poses, latest := if g.vertexKey == 0 then g.latest else poses[g.vertexKey - 1])
  }

  /** Refine is determined by what it writes: a pose per key and the latest pose. */
  lemma RefineCharacterized(math: PoseMath, g: Graph, poses: map<nat, Pose6DOF>, latest: Pose6DOF)
    requires Valid(g)
    requires KeysBelow(poses, g.vertexKey)
    requires forall k :: k in poses ==> poses[k] == RefinedPose(math, g.backend.estimates[k])
    requires latest == if g.vertexKey == 0 then g.latest else poses[g.vertexKey - 1]
    ensures g.(poses := poses, latest := latest) == Refine(math, g)
  {
    var r := Refine(math, g);
    assert poses.Keys == r.poses.Keys;
    assert poses == r.poses;
  }

  /** The poses refineVertices writes depend only on the estimates, so refining twice is refining once. */
  lemma RefineIdempotent(math: PoseMath, g: Graph)
    requires Valid(g)
    ensures Refine(math, Refine(math, g)) == Refine(math, g)
  {
    var r := Refine(math, g);
    var rr := Refine(math, r);
    assert rr.poses == r.poses;
  }

  /** The keys below n that carry a keyframe scan, in increasing order. */
  function KeyframeKeys(scans: map<nat, Cloud>, n: nat): (ks: seq<nat>)
    ensures forall k: nat :: k in ks <==> k < n && k in scans
  {
    if n == 0 then []
    else
      var prev := KeyframeKeys(scans, n - 1);
      if n - 1 in scans then prev + [n - 1] else prev
  }

  /** The keys below n without a scan, in increasing order. */
  function PlainKeys(scans: map<nat, Cloud>, n: nat): (ks: seq<nat>)
    ensures forall k: nat :: k in ks <==> k < n && k !in scans
  {
    if n == 0 then []
    else
      var prev := PlainKeys(scans, n - 1);
      if n - 1 in scans then prev else prev + [n - 1]
  }

  ghost predicate Increasing(s: seq<nat>) {
    forall i, j :: 0 <= i < j < |s| ==> s[i] < s[j]
  }

  lemma AppendIncreasing(s: seq<nat>, x: nat)
    requires Increasing(s) && forall y :: y in s ==> y < x
    ensures Increasing(s + [x])
  {
    assert forall i :: 0 <= i < |s| ==> s[i] in s;
  }

  /** Both lists visit their keys in increasing order. */
  lemma {:induction false} KeyListsIncreasing(scans: map<nat, Cloud>, n: nat)
    ensures Increasing(KeyframeKeys(scans, n)) && Increasing(PlainKeys(scans, n))
  {
    if n > 0 {
      KeyListsIncreasing(scans, n - 1);
      AppendIncreasing(KeyframeKeys(scans, n - 1), n - 1);
      AppendIncreasing(PlainKeys(scans, n - 1), n - 1);
    }
  }

  /** The keys of scans below n. */
  function ScanKeysBelow(scans: map<nat, Cloud>, n: nat): set<nat> {
    set k | k in scans && k < n
  }

  /** There is one keyframe key per scan stored under a key below n. */
  lemma {:induction false} KeyframeKeysCount(scans: map<nat, Cloud>, n: nat)
    ensures |KeyframeKeys(scans, n)| == |ScanKeysBelow(scans, n)|
  {
    if n > 0 {
      KeyframeKeysCount(scans, n - 1);
      var before := ScanKeysBelow(scans, n - 1);
      if n - 1 in scans {
        assert ScanKeysBelow(scans, n) == before + {n - 1};
      } else {
        assert ScanKeysBelow(scans, n) == before;
      }
    }
  }

  /** Every key below n is in exactly one of the two lists. */
  lemma {:induction false} PartitionSizes(scans: map<nat, Cloud>, n: nat)
    ensures |KeyframeKeys(scans, n)| + |PlainKeys(scans, n)| == n
  {
    if n > 0 {
      PartitionSizes(scans, n - 1);
    }
  }

  /** The lists below n depend only on which keys below n carry a scan. */
  lemma {:induction false} KeysFrame(scans: map<nat, Cloud>, scans': map<nat, Cloud>, n: nat)
    requires forall k :: k < n ==> (k in scans <==> k in scans')
    ensures KeyframeKeys(scans, n) == KeyframeKeys(scans', n)
    ensures PlainKeys(scans, n) == PlainKeys(scans', n)
  {
    if n > 0 {
      KeysFrame(scans, scans', n - 1);
    }
  }

  /** A new vertex is appended to the keyframe list when it is a keyframe, to the plain list otherwise. */
  lemma AddVertexExtendsKeyLists(math: PoseMath, g: Graph, scan: Cloud, pose: Pose6DOF, isKeyframe: bool)
    requires Valid(g)
    ensures var r := AddVertex(math, g, scan, pose, isKeyframe);
      && KeyframeKeys(r.scans, r.vertexKey) ==
           KeyframeKeys(g.scans, g.vertexKey) + (if isKeyframe then [g.vertexKey] else [])
      && PlainKeys(r.scans, r.vertexKey) ==
           PlainKeys(g.scans, g.vertexKey) + (if isKeyframe then [] else [g.vertexKey])
  {
    var r := AddVertex(math, g, scan, pose, isKeyframe);
    KeysFrame(g.scans, r.scans, g.vertexKey);
  }

  /** The positions of the poses under the given keys, in the same order. */
  function Positions(poses: map<nat, Pose6DOF>, ks: seq<nat>): seq<Vec3>
    requires forall k :: k in ks ==> k in poses
  {
    seq(|ks|, i requires 0 <= i < |ks| => poses[ks[i]].pos)
  }

  lemma PositionsSnoc(poses: map<nat, Pose6DOF>, ks: seq<nat>, k: nat)
    requires forall j :: j in ks ==> j in poses
    requires k in poses
    ensures Positions(poses, ks + [k]) == Positions(poses, ks) + [poses[k].pos]
  {
  }

  /** The keyframe scans under the given keys, each transformed by its current table pose. */
  function TransformedScans(ops: CloudOps, g: Graph, ks: seq<nat>): seq<Cloud>
    requires forall k :: k in ks ==> k in g.scans && k in g.poses
  {
    seq(|ks|, i requires 0 <= i < |ks| => ops.transform(g.scans[ks[i]], g.poses[ks[i]]))
  }

  lemma TransformedScansSnoc(ops: CloudOps, g: Graph, ks: seq<nat>, k: nat)
    requires forall j :: j in ks ==> j in g.scans && j in g.poses
    requires k in g.scans && k in g.poses
    ensures TransformedScans(ops, g, ks + [k]) == TransformedScans(ops, g, ks) + [ops.transform(g.scans[k], g.poses[k])]
  {
  }

  /** What publishRefinedMap publishes, in order. */
  function RefinedMap(ops: CloudOps, g: Graph): seq<Cloud>
    requires Valid(g)
  {
    TransformedScans(ops, g, KeyframeKeys(g.scans, g.vertexKey))
  }

  /** The refined map holds one cloud per stored keyframe scan. */
  lemma RefinedMapSize(ops: CloudOps, g: Graph)
    requires Valid(g)
    ensures |RefinedMap(ops, g)| == |g.scans|
  {
    KeyframeKeysCount(g.scans, g.vertexKey);
    assert ScanKeysBelow(g.scans, g.vertexKey) == g.scans.Keys;
  }

  /** After refineVertices the map is built from the optimised estimates, not from the poses
      the keyframes were inserted with. */
  lemma RefinedMapAfterRefine(math: PoseMath, ops: CloudOps, g: Graph)
    requires Valid(g)
    ensures var ks := KeyframeKeys(g.scans, g.vertexKey);
      var m := RefinedMap(ops, Refine(math, g));
      && |m| == |ks|
      && forall i :: 0 <= i < |ks| ==>
           m[i] == ops.transform(g.scans[ks[i]], RefinedPose(math, g.backend.estimates[ks[i]]))
  {
  }

  /** Edges added with the same endpoints, covariance and stamp build the same graph, whatever
      position and rotation they carry. */
  lemma EdgeIgnoresGivenTransform(math: PoseMath, g: Graph, p: Pose6DOF, q: Pose6DOF,
                                  v1: nat, v2: nat, accepted: bool)
    requires Valid(g) && v1 < g.vertexKey && v2 < g.vertexKey
    requires p.cov == q.cov && p.stamp == q.stamp
    ensures AddEdge(math, g, p, v1, v2, accepted) == AddEdge(math, g, q, v1, v2, accepted)
  {
  }

  /** The operations of the graph after construction, in the order its callers issue them. */
  datatype Op =
    | NewVertex(scan: Cloud, pose: Pose6DOF, isKeyframe: bool)
    | NewEdge(pose: Pose6DOF, v1: nat, v2: nat, accepted: bool)
    | OptimizeGraph(run: OptimizerRun)
    | RefineVertices

  /** One operation; None for an edge naming a vertex the graph does not hold, on which the
      source dereferences a null vertex. */
  function Apply(math: PoseMath, g: Graph, op: Op): (r: Option<Graph>)
    requires Valid(g)
    ensures r.Some? ==> Valid(r.value)
    ensures r.None? <==> op.NewEdge? && !(op.v1 < g.vertexKey && op.v2 < g.vertexKey)
  {
    match op
    case NewVertex(scan, pose, isKeyframe) => Some(AddVertex(math, g, scan, pose, isKeyframe))
    case NewEdge(pose, v1, v2, accepted) =>
      if v1 < g.vertexKey && v2 < g.vertexKey then Some(AddEdge(math, g, pose, v1, v2, accepted)) else None
    case OptimizeGraph(run) => Some(Optimize(g, run).0)
    case RefineVertices => Some(Refine(math, g))
  }

  function Run(math: PoseMath, g: Graph, ops: seq<Op>): (r: Option<Graph>)
    requires Valid(g)
    ensures r.Some? ==> Valid(r.value)
    decreases |ops|
  {
    if ops == [] then Some(g)
    else match Apply(math, g, ops[0])
      case None => None
      case Some(g1) => Run(math, g1, ops[1..])
  }

  function VertexCount(ops: seq<Op>): nat {
    if ops == [] then 0 else (if ops[0].NewVertex? then 1 else 0) + VertexCount(ops[1..])
  }

  function AcceptedEdgeCount(ops: seq<Op>): nat {
    if ops == [] then 0 else (if ops[0].NewEdge? && ops[0].accepted then 1 else 0) + AcceptedEdgeCount(ops[1..])
  }

  /** The vertex counter counts the vertices added and the edge counter the edges g2o accepted. */
  lemma {:induction false} CountersCountInsertions(math: PoseMath, g: Graph, ops: seq<Op>)
    requires Valid(g) && Run(math, g, ops).Some?
    ensures Run(math, g, ops).value.vertexKey == g.vertexKey + VertexCount(ops)
    ensures Run(math, g, ops).value.edgeKey == g.edgeKey + AcceptedEdgeCount(ops)
    decreases |ops|
  {
    if ops != [] {
      CountersCountInsertions(math, Apply(math, g, ops[0]).value, ops[1..]);
    }
  }

  /** Gauge fixing: once vertex 0 exists it stays fixed and no operation moves its estimate; its
      table pose is either the inserted one or the refined pose of that same estimate. The edge
      table keeps mirroring g2o's edges. */
  lemma {:induction false} AnchorNeverMoves(math: PoseMath, g: Graph, ops: seq<Op>)
    requires Valid(g) && g.vertexKey > 0 && Run(math, g, ops).Some?
    ensures var h := Run(math, g, ops).value;
      && h.vertexKey >= g.vertexKey && h.edgeKey >= g.edgeKey
      && 0 in h.backend.fixed
      && h.backend.estimates[0] == g.backend.estimates[0]
      && (h.poses[0] == g.poses[0] || h.poses[0] == RefinedPose(math, g.backend.estimates[0]))
      && (EdgesMirrored(g) ==> EdgesMirrored(h))
    decreases |ops|
  {
    if ops != [] {
      var g1 := Apply(math, g, ops[0]).value;
      if ops[0].NewEdge? && ops[0].accepted && EdgesMirrored(g) {
        AddEdgeKeepsMirrored(math, g, ops[0].pose, ops[0].v1, ops[0].v2);
      }
      AnchorNeverMoves(math, g1, ops[1..]);
      var h := Run(math, g, ops).value;
      if h.poses[0] != g1.poses[0] {
        assert h.poses[0] == RefinedPose(math, g1.backend.estimates[0]);
      }
    }
  }

  /** A graph holding only the anchor vertex has nothing g2o may move: whatever count optimize()
      returns, the graph is unchanged, and the result reports success for every non-zero count,
      including a negative one. */
  lemma SingleVertexOptimize(math: PoseMath, pose: Pose6DOF, scan: Cloud, isKeyframe: bool, run: OptimizerRun)
    ensures var g := AddVertex(math, Initial(math), scan, pose, isKeyframe);
      && Optimize(g, run).0 == g
      && (Optimize(g, run).1 <==> run.iterations != 0)
  {
    var g := AddVertex(math, Initial(math), scan, pose, isKeyframe);
    if run.iterations != 0 {
      assert g.backend.fixed == {0};
      assert Updated(g.backend, run.estimates) == g.backend.estimates;
    }
  }

  /** Each vertex, edge, optimise or refine operation keeps graph_edges_ mirroring g2o's edges. */
  lemma {:induction false} MirroredKept(math: PoseMath, g: Graph, ops: seq<Op>)
    requires Valid(g) && EdgesMirrored(g) && Run(math, g, ops).Some?
    ensures EdgesMirrored(Run(math, g, ops).value)
    decreases |ops|
  {
    if ops != [] {
      if ops[0].NewEdge? && ops[0].accepted {
        AddEdgeKeepsMirrored(math, g, ops[0].pose, ops[0].v1, ops[0].v2);
      }
      MirroredKept(math, Apply(math, g, ops[0]).value, ops[1..]);
    }
  }

  /** Every graph built from construction by these operations resolves its edges, so the
      marker loop's lookups succeed on it. */
  lemma ReachableEdgesResolve(math: PoseMath, ops: seq<Op>)
    requires Run(math, Initial(math), ops).Some?
    ensures EdgesResolved(Run(math, Initial(math), ops).value)
  {
    MirroredKept(math, Initial(math), ops);
    MirroredEdgesResolve(Run(math, Initial(math), ops).value);
  }

  /** With g2o's conversions inverse on positions, refineVertices stores the start pose with its
      position negated, after any operations: g2o never moves the anchor vertex, yet the position
      of its table pose (what getStartPose returns) changes sign at the first refine (when non-zero). */
  lemma StartPoseNegatedByRefine(math: PoseMath, scan: Cloud, pose: Pose6DOF, isKeyframe: bool, ops: seq<Op>)
    requires math.toPose(math.toSE3(pose.rot, pose.pos)).pos == pose.pos
    requires Run(math, AddVertex(math, Initial(math), scan, pose, isKeyframe), ops).Some?
    ensures var h := Run(math, AddVertex(math, Initial(math), scan, pose, isKeyframe), ops).value;
      0 in Refine(math, h).poses && Refine(math, h).poses[0].pos == pose.pos.Negated()
  {
    var g := AddVertex(math, Initial(math), scan, pose, isKeyframe);
    AnchorNeverMoves(math, g, ops);
    var h := Run(math, g, ops).value;
    assert h.backend.estimates[0] == math.toSE3(pose.rot, pose.pos);
    var p := Refine(math, h).poses[0];
    assert p == RefinedPose(math, h.backend.estimates[0]);
  }
}
