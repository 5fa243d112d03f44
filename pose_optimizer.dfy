/** PoseOptimizer: the pose-graph store. Its fields are the tables and counters of
    the source object; every method that changes them is proved to do what the
    matching function of module PoseGraph does to the whole state. */
module Optimizer {
  import opened Geometry
  import opened PoseGraph

  class PoseOptimizer {
    const math: PoseMath
    const clouds: CloudOps
    const g2o: G2o

    var currVertexKey: nat
    var currEdgeKey: nat
    var graphPoses: map<nat, Pose6DOF>
    var graphStamps: map<nat, Time>
    var graphScans: map<nat, Cloud>
    var graphEdges: map<nat, (nat, nat)>
    var latestPose: Pose6DOF
    /** The g2o graph owned through optimizer_. */
    var optimizer: Backend

    /** The whole state as a value. */
    function State(): Graph
      reads this
    {
      Graph(currVertexKey, currEdgeKey, graphPoses, graphStamps, graphScans, graphEdges, latestPose, optimizer)
    }

    /** The constructor, which runs init() on a fresh object. */
    constructor (math: PoseMath, clouds: CloudOps, g2o: G2o)
      ensures this.math == math && this.clouds == clouds && this.g2o == g2o
      ensures State() == Initial(math)
    {
      this.math := math;
      this.clouds := clouds;
      this.g2o := g2o;
      currVertexKey := 0;
      currEdgeKey := 0;
      graphPoses := map[];
      graphStamps := map[];
      graphScans := map[];
      graphEdges := map[];
      latestPose := math.defaultPose;
      optimizer := Backend(map[], {}, map[]);
    }

    method Init()
      modifies this
      ensures State() == PoseGraph.Init(old(State()))
    {
      currVertexKey := 0;
      currEdgeKey := 0;
      graphStamps := map[];
      graphScans := map[];
      graphPoses := map[];
      optimizer := Backend(map[], {}, map[]);
    }

    method AddNewVertex(scan: Cloud, pose: Pose6DOF, isKeyframe: bool) returns (key: nat)
      requires Valid(State())
      modifies this
      ensures key == old(currVertexKey) && currVertexKey == key + 1
      ensures State() == AddVertex(math, old(State()), scan, pose, isKeyframe)
    {
      key := currVertexKey;
      var estimate := math.toSE3(pose.rot, pose.pos);
      if isKeyframe {
        graphScans := Insert(graphScans, key, scan);
      }
      var fixed := currVertexKey == 0;
      optimizer := AddVertexTo(optimizer, key, estimate, fixed);
      graphStamps := Insert(graphStamps, key, pose.stamp);
      graphPoses := Insert(graphPoses, key, pose);
      currVertexKey := currVertexKey + 1;
    }

    /** Both vertices must exist: the source dereferences the vertices it looks up. */
    method AddNewEdge(pose: Pose6DOF, vertex1Key: nat, vertex2Key: nat) returns (key: nat)
      requires Valid(State())
      requires vertex1Key < currVertexKey && vertex2Key < currVertexKey
      modifies this
      ensures key == old(currEdgeKey)
      ensures var edge := Constraint(vertex1Key, vertex2Key,
                EdgeMeasurement(math, old(optimizer), vertex1Key, vertex2Key), math.invert(pose.cov));
        State() == AddEdge(math, old(State()), pose, vertex1Key, vertex2Key, g2o.addEdge(old(optimizer), edge))
    {
      key := currEdgeKey;
      var measurement := EdgeMeasurement(math, optimizer, vertex1Key, vertex2Key);
      var information := math.invert(pose.cov);
      var edge := Constraint(vertex1Key, vertex2Key, measurement, information);
      var success := g2o.addEdge(optimizer, edge);
      if !success {
        return;
      }
      optimizer := optimizer.(constraints := optimizer.constraints[key := edge]);
      graphStamps := Insert(graphStamps, key, pose.stamp);
      graphEdges := Insert(graphEdges, key, (vertex1Key, vertex2Key));
      currEdgeKey := currEdgeKey + 1;
    }

    method OptimizeGraph() returns (ok: bool)
      requires Valid(State())
      modifies this
      ensures (State(), ok) == Optimize(old(State()), g2o.optimize(old(optimizer), PoseOptIters))
    {
      var run := g2o.optimize(optimizer, PoseOptIters);
      if run.iterations == 0 {
        return false;
      }
      optimizer := optimizer.(estimates := Updated(optimizer, run.estimates));
      return true;
    }

    /** The loop of refineVertices: for each vertex key, in order, the estimate's pose with its
        position negated is written to the pose table, and the last one is kept as the latest pose. */
    method RefineVertices()
      requires Valid(State())
      modifies this`graphPoses, this`latestPose
      ensures State() == Refine(math, old(State()))
    {
      var estimates := optimizer.estimates;
      BelowSize(estimates.Keys, currVertexKey);
      var size := |estimates|;
      var poses, latest := RefinedTable(estimates, size, graphPoses, latestPose);
      RefineCharacterized(math, State(), poses, latest);
      graphPoses, latestPose := poses, latest;
    }

    /** The pose table and latest pose refineVertices leaves: each key's estimate as a pose with
        its position negated, and the entry of the highest key. */
    method RefinedTable(estimates: map<nat, SE3>, size: nat, poses0: map<nat, Pose6DOF>, latest0: Pose6DOF)
      returns (poses: map<nat, Pose6DOF>, latest: Pose6DOF)
      requires KeysBelow(estimates, size) && KeysBelow(poses0, size)
      ensures KeysBelow(poses, size)
      ensures forall k: nat :: k < size ==> poses[k] == RefinedPose(math, estimates[k])
      ensures latest == if size > 0 then poses[size - 1] else latest0
    {
      poses, latest := poses0, latest0;
      var vKey := 0;
      while vKey < size
        invariant vKey <= size
        invariant KeysBelow(poses, size)
        invariant forall k: nat :: k < vKey ==> poses[k] == RefinedPose(math, estimates[k])
        invariant latest == if vKey == size && size > 0 then poses[size - 1] else latest0
      {
        var vPose := math.toPose(estimates[vKey]);
        vPose := vPose.(pos := vPose.pos.Negated());
        poses := poses[vKey := vPose];
        if vKey == size - 1 {
          latest := vPose;
        }
        vKey := vKey + 1;
      }
    }

    method GetStartPose() returns (pose: Pose6DOF)
      requires Valid(State()) && currVertexKey > 0
      ensures pose == graphPoses[0]
    {
      pose := graphPoses[0];
    }

    method GetLatestPose() returns (pose: Pose6DOF)
      ensures pose == latestPose
    {
      pose := latestPose;
    }

    /** No loop-closure detection is implemented. */
    method CheckLoopClosure() returns (closed: bool)
      ensures !closed
    {
      closed := false;
    }

    /** The points of the edge marker: both endpoints of every edge, in edge-key order. */
    method EdgeMarkerPoints() returns (edgePoints: seq<Vec3>)
      requires Valid(State()) && EdgesResolved(State())
      ensures |edgePoints| == 2 * currEdgeKey
      ensures forall i :: 0 <= i < currEdgeKey ==>
        edgePoints[2 * i] == graphPoses[graphEdges[i].0].pos && edgePoints[2 * i + 1] == graphPoses[graphEdges[i].1].pos
    {
      var poses, edges, edgeCount := graphPoses, graphEdges, currEdgeKey;
      edgePoints := [];
      var i := 0;
      while i < edgeCount
        invariant i <= edgeCount
        invariant |edgePoints| == 2 * i
        invariant forall j :: 0 <= j < i ==>
          edgePoints[2 * j] == poses[edges[j].0].pos && edgePoints[2 * j + 1] == poses[edges[j].1].pos
      {
        var (vertex1Key, vertex2Key) := edges[i];
        edgePoints := edgePoints + [poses[vertex1Key].pos, poses[vertex2Key].pos];
        i := i + 1;
      }
    }

    /** The points of the vertex and keyframe markers: the vertex keys split by whether they
        carry a scan, each part in key order. */
    method VertexMarkerPoints() returns (vertexPoints: seq<Vec3>, keyframePoints: seq<Vec3>)
      requires Valid(State())
      ensures vertexPoints == Positions(graphPoses, PlainKeys(graphScans, currVertexKey))
      ensures keyframePoints == Positions(graphPoses, KeyframeKeys(graphScans, currVertexKey))
    {
      var poses, scans, vertexCount := graphPoses, graphScans, currVertexKey;
      vertexPoints, keyframePoints := [], [];
      var i := 0;
      while i < vertexCount
        invariant i <= vertexCount
        invariant vertexPoints == Positions(poses, PlainKeys(scans, i))
        invariant keyframePoints == Positions(poses, KeyframeKeys(scans, i))
      {
        var point := poses[i].pos;
        if i in scans {
          PositionsSnoc(poses, KeyframeKeys(scans, i), i);
          keyframePoints := keyframePoints + [point];
        } else {
          PositionsSnoc(poses, PlainKeys(scans, i), i);
          vertexPoints := vertexPoints + [point];
        }
        i := i + 1;
      }
    }

    /** The points of the three markers publishPoseGraphMarkers builds, edges first. */
    method PoseGraphMarkerPoints() returns (edgePoints: seq<Vec3>, vertexPoints: seq<Vec3>, keyframePoints: seq<Vec3>)
      requires Valid(State()) && EdgesResolved(State())
      ensures |edgePoints| == 2 * currEdgeKey
      ensures forall i :: 0 <= i < currEdgeKey ==>
        edgePoints[2 * i] == graphPoses[graphEdges[i].0].pos && edgePoints[2 * i + 1] == graphPoses[graphEdges[i].1].pos
      ensures vertexPoints == Positions(graphPoses, PlainKeys(graphScans, currVertexKey))
      ensures keyframePoints == Positions(graphPoses, KeyframeKeys(graphScans, currVertexKey))
    {
      edgePoints := EdgeMarkerPoints();
      vertexPoints, keyframePoints := VertexMarkerPoints();
    }

    /** The clouds publishRefinedMap publishes: every keyframe scan, in key order, transformed
        by its current table pose. */
    method PublishRefinedMap() returns (published: seq<Cloud>)
      requires Valid(State())
      ensures published == RefinedMap(clouds, State())
    {
      published := [];
      var i := 0;
      while i < currVertexKey
        invariant i <= currVertexKey
        invariant published == TransformedScans(clouds, State(), KeyframeKeys(graphScans, i))
      {
        if i in graphScans {
          var pose := graphPoses[i];
          var cloud := graphScans[i];
          TransformedScansSnoc(clouds, State(), KeyframeKeys(graphScans, i), i);
          published := published + [clouds.transform(cloud, pose)];
        }
        i := i + 1;
      }
    }
  }
}
