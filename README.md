# Pose graph and ICP odometry of a spinning-lidar SLAM node, in Dafny

This project models the two stateful cores of the `icpslam` ROS node.

- **`PoseOptimizer`** holds the pose graph:
  - a vertex and an edge counter;
  - tables of stamps, keyframe scans and poses keyed by those counters;
  - the edge table;
  - the latest refined pose;
  - the g2o optimiser's view of the graph: vertex estimates, fixed vertices and edge constraints.

  Its operations are `init`, `addNewVertex`, `addNewEdge`, `optimizeGraph`, `refineVertices`, the pose accessors, `checkLoopClosure`, and the loops that build the pose-graph markers and the refined map.
- **`ICPOdometer`** keeps two histories and two paths, one each for robot odometry and ICP odometry, plus the previous and current clouds. Two callbacks drive it:
  - robot odometry, with motion gating;
  - assembled clouds, with VoxelGrid downsampling, GICP registration, and composition of the increment onto the latest robot-odometry pose.

Each core is split in two:

- **A value model.** Modules `PoseGraph` and `Odometry` hold a snapshot datatype and one function per operation. The properties are proved there: the contracts of the functions, and lemmas over arbitrary sequences of operations (`Run`).
- **A class.** `Optimizer.PoseOptimizer` and `IcpNode.IcpOdometer` keep the source's fields and update them in place. Each method is proved to take `State()` to what the matching function computes.

Module `Geometry` holds the shared values:

- Poses have a concrete position (`Vec3`).
- Timestamps, quaternions, covariance matrices, SE(3) estimates, registration transforms and points are opaque.
- The Eigen, g2o and PCL operations the core calls are function-valued fields of `PoseMath` and `CloudOps`, which each object is built with.

Two g2o decisions are parameters of the model:

- whether `addEdge` accepts an edge (`G2o.addEdge`);
- what `optimize(10)` returns (`G2o.optimize`, an iteration count and new estimates).

**ICP increments do not accumulate.** Two converged ICP increments of (1,0,0) and then (0,1,0) do not add up to (1,1,0). The code composes each increment onto the latest *robot-odometry* pose (icp_odometer.cpp:190), not onto the latest ICP pose. The model follows the code:

- `Odometry.IncrementsDoNotAccumulate` proves the result is (0,1,0) when no robot sample arrives between the clouds.
- `Odometry.SampleBetweenIncrements` proves it is (1,1,0) when a robot sample at (1,0,0) arrives between them.

**Consequences of `std::map::insert` never replacing an entry.** The model keeps both of these as the code has them:

- Vertex stamps and edge stamps share one table keyed by two independent counters. An edge's stamp is therefore dropped when a vertex already uses its key, and a later vertex's stamp is dropped when an edge took the key first (`PoseGraph.AddVertex`, `PoseGraph.AddEdge`).
- `init` does not clear `graph_edges_` or `latest_pose`. After a repeated `init`, old edge entries survive, and new edges cannot overwrite them (`PoseGraph.Init`).

## Model

All source paths are under `spinning_lidar_icpslam/src/icpslam/`.

| member | source | states |
|---|---|---|
| Geometry.Pose6DOF.WithNegatedPosition | spinning_lidar_icpslam/src/icpslam/pose_optimizer.cpp:241 | the refined pose's position is the negation of the estimate's (they sum to zero); stamp, rotation and covariance are kept |
| PoseGraph.Insert | spinning_lidar_icpslam/src/icpslam/pose_optimizer.cpp:162-163 | `std::map::insert`: the key set gains the key; an absent key is mapped to the value; a present key leaves the map unchanged |
| PoseGraph.MirroredEdgesResolve | spinning_lidar_icpslam/src/icpslam/pose_optimizer.cpp:303-314 | while the edge table mirrors g2o's edges, every edge key below the counter is present and both its endpoints have a pose, so the marker loop's `.at` lookups succeed |
| PoseGraph.Initial | spinning_lidar_icpslam/src/icpslam/pose_optimizer.cpp:48-52 | a new optimiser satisfies the graph invariant: both counters 0, edge table mirroring an empty g2o graph, latest pose the default pose |
| PoseGraph.Init | spinning_lidar_icpslam/src/icpslam/pose_optimizer.cpp:55-79 | both counters 0; stamp, scan and pose tables empty; a fresh g2o graph; the edge table and the latest pose kept; the invariant holds |
| PoseGraph.AddVertex | spinning_lidar_icpslam/src/icpslam/pose_optimizer.cpp:140-166 | the key is the old vertex counter and the counter grows by one; the vertex is fixed iff its key is 0; its estimate is the SE3 of the given pose; a scan is stored under the key iff it is a keyframe; the pose table maps the new key to the pose with no entry overwritten; the stamp is stored unless an edge already used the key; the invariant is kept |
| PoseGraph.AddEdge | spinning_lidar_icpslam/src/icpslam/pose_optimizer.cpp:168-201 | if g2o refuses the edge, nothing changes; otherwise the constraint is added under the old edge counter, the counter grows by one, the edge entry is inserted without overwriting, and the stamp is dropped when a vertex uses the key; the invariant is kept |
| PoseGraph.AddEdgeKeepsMirrored | spinning_lidar_icpslam/src/icpslam/pose_optimizer.cpp:196-200 | an accepted edge keeps the edge table mirroring g2o's edges, and the new entry holds its two endpoints |
| PoseGraph.EdgeIgnoresGivenTransform | spinning_lidar_icpslam/src/icpslam/pose_optimizer.cpp:172-186 | the edge measurement comes from the current estimates of the two vertices: edges given poses with different positions or rotations (same stamp and covariance) build the same graph |
| PoseGraph.Optimize | spinning_lidar_icpslam/src/icpslam/pose_optimizer.cpp:203-225 | reports success iff the count g2o returns is non-zero, so a negative count (g2o could not start) counts as success; on failure the graph is unchanged; only estimates change, over the same vertices; fixed vertices, and vertices the run gives no estimate for, keep their estimate; the other free vertices take the optimiser's |
| PoseGraph.SingleVertexOptimize | spinning_lidar_icpslam/src/icpslam/pose_optimizer.cpp:211-217 | a graph holding only the fixed anchor vertex is left unchanged by optimisation whatever count g2o returns, and the result is success exactly when the count is non-zero (a negative count included) |
| PoseGraph.RefinedPose | spinning_lidar_icpslam/src/icpslam/pose_optimizer.cpp:238-241 | the refined pose is the pose of the estimate with its position negated; its stamp, rotation and covariance are those of the estimate's pose |
| PoseGraph.Refine | spinning_lidar_icpslam/src/icpslam/pose_optimizer.cpp:233-247 | every vertex's pose becomes the refined pose of its estimate; the latest pose becomes the entry of the highest key when a vertex exists; nothing else changes |
| PoseGraph.RefineCharacterized | spinning_lidar_icpslam/src/icpslam/pose_optimizer.cpp:236-246 | any pose table holding exactly the refined pose for each vertex key, with the latest pose taken from the highest key, is the result of `refineVertices` |
| PoseGraph.RefineIdempotent | spinning_lidar_icpslam/src/icpslam/pose_optimizer.cpp:233-247 | refining twice gives the same graph as refining once |
| PoseGraph.KeyframeKeys | spinning_lidar_icpslam/src/icpslam/pose_optimizer.cpp:352-360 | exactly the keys below the counter that carry a scan |
| PoseGraph.PlainKeys | spinning_lidar_icpslam/src/icpslam/pose_optimizer.cpp:352-360 | exactly the keys below the counter that carry no scan |
| PoseGraph.KeyListsIncreasing | spinning_lidar_icpslam/src/icpslam/pose_optimizer.cpp:352-360 | both lists are in increasing key order, as the loop over keys visits them |
| PoseGraph.PartitionSizes | spinning_lidar_icpslam/src/icpslam/pose_optimizer.cpp:352-360 | the keyframe and plain lists together have one entry per vertex key |
| PoseGraph.KeysFrame | spinning_lidar_icpslam/src/icpslam/pose_optimizer.cpp:352-360 | the two lists below n depend only on which keys below n carry a scan |
| PoseGraph.KeyframeKeysCount | spinning_lidar_icpslam/src/icpslam/pose_optimizer.cpp:427-429 | the keyframe list has one entry per stored scan below the counter |
| PoseGraph.AddVertexExtendsKeyLists | spinning_lidar_icpslam/src/icpslam/pose_optimizer.cpp:149-153 | a new vertex is appended to the keyframe list if it is a keyframe, and to the plain list otherwise |
| PoseGraph.RefinedMapSize | spinning_lidar_icpslam/src/icpslam/pose_optimizer.cpp:425-446 | the refined map publishes one cloud per stored keyframe scan |
| PoseGraph.RefinedMapAfterRefine | spinning_lidar_icpslam/src/icpslam/pose_optimizer.cpp:425-446 | after `refineVertices`, each published cloud is its scan transformed by the refined pose of the optimised estimate, in keyframe order |
| PoseGraph.Apply | spinning_lidar_icpslam/src/icpslam/pose_optimizer.cpp:170-175 | one operation keeps the invariant; it fails exactly on an edge naming a vertex the graph does not hold, where the source dereferences a null vertex |
| PoseGraph.Run | spinning_lidar_icpslam/src/icpslam/pose_optimizer.cpp:140-247 | any sequence of vertex, edge, optimise and refine operations keeps the graph invariant (a repeated init is not among them) |
| PoseGraph.CountersCountInsertions | spinning_lidar_icpslam/src/icpslam/pose_optimizer.cpp:140-201 | over any sequence of vertex, edge, optimise and refine operations (no repeated init), the vertex counter grows by the number of vertices added and the edge counter by the number of edges g2o accepted |
| PoseGraph.AnchorNeverMoves | spinning_lidar_icpslam/src/icpslam/pose_optimizer.cpp:155-158 | over any sequence of vertex, edge, optimise and refine operations (no repeated init), vertex 0 stays fixed and keeps its estimate; its table pose is the inserted one or the refined pose of that estimate; the edge table keeps mirroring g2o |
| PoseGraph.MirroredKept | spinning_lidar_icpslam/src/icpslam/pose_optimizer.cpp:140-247 | vertex, edge, optimise and refine operations keep the edge table mirroring g2o's edges, from any graph where it did |
| PoseGraph.ReachableEdgesResolve | spinning_lidar_icpslam/src/icpslam/pose_optimizer.cpp:303-314 | on every graph built from construction by those operations, every edge key resolves to two existing poses, so the marker lookups succeed |
| PoseGraph.StartPoseNegatedByRefine | spinning_lidar_icpslam/src/icpslam/pose_optimizer.cpp:233-247 | after a first vertex and any operations, refining stores vertex 0's pose with the inserted position negated (when g2o's conversions are inverse on positions), so, for a non-zero inserted position, the position getStartPose returns changes sign |
| Optimizer.PoseOptimizer.constructor | spinning_lidar_icpslam/src/icpslam/pose_optimizer.cpp:48-52 | the new object's state is the initial graph |
| Optimizer.PoseOptimizer.Init | spinning_lidar_icpslam/src/icpslam/pose_optimizer.cpp:55-79 | the new state is `PoseGraph.Init` of the old one |
| Optimizer.PoseOptimizer.AddNewVertex | spinning_lidar_icpslam/src/icpslam/pose_optimizer.cpp:140-166 | returns the old vertex counter, increments it by one, and the new state is `PoseGraph.AddVertex` of the old one |
| Optimizer.PoseOptimizer.AddNewEdge | spinning_lidar_icpslam/src/icpslam/pose_optimizer.cpp:168-201 | returns the old edge counter, and the new state is `PoseGraph.AddEdge` with g2o's verdict on the constraint built from the current estimates |
| Optimizer.PoseOptimizer.OptimizeGraph | spinning_lidar_icpslam/src/icpslam/pose_optimizer.cpp:203-225 | result and new state are `PoseGraph.Optimize` applied to g2o's run of 10 iterations |
| Optimizer.PoseOptimizer.RefinedTable | spinning_lidar_icpslam/src/icpslam/pose_optimizer.cpp:236-246 | the loop over vertex keys yields a table holding, for every key, the refined pose of its estimate, and the entry of the highest key as the latest pose |
| Optimizer.PoseOptimizer.RefineVertices | spinning_lidar_icpslam/src/icpslam/pose_optimizer.cpp:233-247 | the new state is `PoseGraph.Refine` of the old one: only the pose table and the latest pose change |
| Optimizer.PoseOptimizer.GetStartPose | spinning_lidar_icpslam/src/icpslam/pose_optimizer.cpp:270-273 | returns the table pose of vertex 0 |
| Optimizer.PoseOptimizer.GetLatestPose | spinning_lidar_icpslam/src/icpslam/pose_optimizer.cpp:275-278 | returns the latest refined pose |
| Optimizer.PoseOptimizer.CheckLoopClosure | spinning_lidar_icpslam/src/icpslam/pose_optimizer.cpp:280-283 | never reports a loop closure |
| Optimizer.PoseOptimizer.EdgeMarkerPoints | spinning_lidar_icpslam/src/icpslam/pose_optimizer.cpp:303-314 | two points per edge key, the positions of its two endpoints, in key order |
| Optimizer.PoseOptimizer.VertexMarkerPoints | spinning_lidar_icpslam/src/icpslam/pose_optimizer.cpp:352-360 | vertex markers: the positions of the keys without a scan; keyframe markers: the positions of the keys with a scan; each in key order |
| Optimizer.PoseOptimizer.PoseGraphMarkerPoints | spinning_lidar_icpslam/src/icpslam/pose_optimizer.cpp:285-368 | the edge, vertex and keyframe marker points together, as the two methods above state them |
| Optimizer.PoseOptimizer.PublishRefinedMap | spinning_lidar_icpslam/src/icpslam/pose_optimizer.cpp:425-446 | publishes exactly the keyframe scans in increasing key order, each transformed by its current table pose |
| Odometry.InitialInv | spinning_lidar_icpslam/src/icpslam/icp_odometer.cpp:34 | the odometer starts uninitialised and in a state satisfying the invariant |
| Odometry.OnRobotOdometry | spinning_lidar_icpslam/src/icpslam/icp_odometer.cpp:130-168 | every sample is appended to the robot history before gating. The first sample seeds the ICP history and the ICP path and sets the flag; later samples leave both alone. The robot path gains the sample iff it is not within the threshold of the last path entry. The invariant is kept |
| Odometry.UpdateIcpOdometry | spinning_lidar_icpslam/src/icpslam/icp_odometer.cpp:184-206 | exactly one pose is appended, with position prev.pos + R(prev.rot)·t and rotation normalize(prev.rot·q), where prev is the latest robot-odometry pose; the path gains the same pose; nothing else changes |
| Odometry.OnAssembledCloud | spinning_lidar_icpslam/src/icpslam/icp_odometer.cpp:220-267 | the previous cloud becomes the downsampled input; the ICP history grows by one exactly when the previous cloud was non-empty, the odometer was initialised and registration converged, and then by the composed increment, with the ICP path gaining that pose stamped now (and otherwise unchanged); nothing else of the robot side changes |
| Odometry.Step | spinning_lidar_icpslam/src/icpslam/icp_odometer.cpp:130-267 | either callback keeps the invariant |
| Odometry.Run | spinning_lidar_icpslam/src/icpslam/icp_odometer.cpp:130-267 | any interleaving of the two callbacks keeps the invariant |
| Odometry.InitedIsStable | spinning_lidar_icpslam/src/icpslam/icp_odometer.cpp:153 | once set, the initialised flag is never reset |
| Odometry.StepRecordsSample | spinning_lidar_icpslam/src/icpslam/icp_odometer.cpp:138 | one callback adds to the robot history exactly the pose of its robot sample, and nothing for a cloud |
| Odometry.EverySampleRecorded | spinning_lidar_icpslam/src/icpslam/icp_odometer.cpp:138 | over any interleaving, the robot history is extended by exactly the poses of the robot samples, in order |
| Odometry.IcpHistoryGrowth | spinning_lidar_icpslam/src/icpslam/icp_odometer.cpp:247-249 | the ICP history is only ever extended, by at most one pose per cloud plus the seed pose if not yet initialised |
| Odometry.NoIcpPoseBeforeInit | spinning_lidar_icpslam/src/icpslam/icp_odometer.cpp:230 | clouds arriving before any robot sample never run registration: the flag stays unset and the ICP history stays empty |
| Odometry.SamplesKeepPrevCloud | spinning_lidar_icpslam/src/icpslam/icp_odometer.cpp:266 | robot samples never change the previous cloud |
| Odometry.PrevCloudIsLastCloud | spinning_lidar_icpslam/src/icpslam/icp_odometer.cpp:266 | after a cloud and any robot samples, the previous cloud is that cloud downsampled |
| Odometry.CloseSamplesAddAtMostOne | spinning_lidar_icpslam/src/icpslam/icp_odometer.cpp:140-149 | of two samples closer than the threshold, at most one joins the robot path |
| Odometry.IncrementsDoNotAccumulate | spinning_lidar_icpslam/src/icpslam/icp_odometer.cpp:190-195 | increments (1,0,0) then (0,1,0) with no robot sample in between leave the ICP pose at (0,1,0) |
| Odometry.SampleBetweenIncrements | spinning_lidar_icpslam/src/icpslam/icp_odometer.cpp:190-195 | with a robot sample at (1,0,0) between the two increments, the ICP pose reaches (1,1,0) |
| IcpNode.IcpOdometer.constructor | spinning_lidar_icpslam/src/icpslam/icp_odometer.cpp:30-36 | starts uninitialised with empty histories, paths and clouds |
| IcpNode.IcpOdometer.IsOdomReady | spinning_lidar_icpslam/src/icpslam/icp_odometer.cpp:99-102 | returns the flag, which (under the invariant) holds exactly when an ICP pose and a robot pose exist to read |
| IcpNode.IcpOdometer.GetLatestPoseRobotOdometry | spinning_lidar_icpslam/src/icpslam/icp_odometer.cpp:104-107 | on a non-empty history, returns its last pose |
| IcpNode.IcpOdometer.GetLatestPoseIcpOdometry | spinning_lidar_icpslam/src/icpslam/icp_odometer.cpp:109-112 | on a non-empty history, returns its last pose |
| IcpNode.IcpOdometer.GetLatestCloud | spinning_lidar_icpslam/src/icpslam/icp_odometer.cpp:124-128 | returns the previous cloud and the last ICP pose |
| IcpNode.IcpOdometer.RobotOdometryCallback | spinning_lidar_icpslam/src/icpslam/icp_odometer.cpp:130-168 | the new state is `Odometry.OnRobotOdometry` of the old one, and the invariant is kept |
| IcpNode.IcpOdometer.UpdateIcpOdometry | spinning_lidar_icpslam/src/icpslam/icp_odometer.cpp:184-206 | the new state is `Odometry.UpdateIcpOdometry` of the old one |
| IcpNode.IcpOdometer.AssembledCloudCallback | spinning_lidar_icpslam/src/icpslam/icp_odometer.cpp:220-267 | the new state is `Odometry.OnAssembledCloud` of the old one, and the invariant is kept |

## Left out

- **Floating point.** Positions are exact reals, so rounding in `pos + R·t` and in the negation is not modelled. Quaternions, covariances, SE(3) estimates and transforms are opaque, and the Eigen operations on them (rotation matrix, product, normalisation, inverse, matrix conversions) are uninterpreted functions.
- **g2o internals.** `SparseOptimizer`, Levenberg–Marquardt, `VertexSE3` and `EdgeSE3` are not modelled. Whether `addEdge` accepts an edge and what `optimize` returns are parameters. The model only requires of g2o that it keeps fixed vertices where they are and updates the others.
- **PCL.** VoxelGrid downsampling, GICP registration and `transformPointCloud` are uninterpreted. The GICP settings (iterations, epsilon, correspondence distance) are not modelled.
- **`POSE_DIST_THRESH` and the pose distance.** Both are parameters (`Config.poseDistThresh`, `Config.poseDistance`); their values are not part of this model.
- **ROS plumbing.** Not modelled: parameter loading, publishers and subscribers, message headers, marker styling, `Odometry` message publication, and console output.
- **TF broadcasting and the timer callbacks** (`mapTransformCallback` in both files; `gazeboMapTransformCallback` in pose_optimizer.cpp only). These are I/O.
- **`refineEdges` and `refinePoseGraph`.** `refineEdges` computes values but changes nothing and is never called. `refinePoseGraph` only calls `refineVertices`.
- **The `sizeof(...) > 0` publish guards.** They are always true and only gate publication.
- **Clock reads.** `ros::Time::now()` is a parameter `now` of the cloud callback. The source reads the clock again for the path entry; the model stamps the pose and the path entry with the same `now`.
- **Fixed-width counters.** The `uint` vertex and edge counters are unbounded `nat`s, so wrap-around after 2^32 insertions is not modelled.
- **Vertex ids.** `optimizer_->vertex(k)` on a missing id returns null and `addNewEdge` dereferences it. `Optimizer.PoseOptimizer.AddNewEdge` therefore requires both keys to name existing vertices. The trace model `PoseGraph.Apply` reports such an edge as a failure instead.
- Optimizer.PoseOptimizer.RefineVertices: builds the new pose table and latest pose in locals (`RefinedTable`) and assigns them after the loop, where the source writes each entry as it goes. The result is the same; the intermediate states differ.
- Optimizer.PoseOptimizer.GetStartPose: requires at least one vertex. On an empty pose table the source dereferences `find(0) == end()` (pose_optimizer.cpp:272), which is undefined behaviour and not modelled.
- Optimizer.PoseOptimizer.EdgeMarkerPoints: requires every edge key to resolve to two existing poses, for the reason given on the next line.
- Optimizer.PoseOptimizer.PoseGraphMarkerPoints: requires every edge key to resolve to two existing poses. The source's `.at` would throw otherwise, which can only happen after a repeated `init`: `PoseGraph.ReachableEdgesResolve` proves the requirement holds on every graph built without one.
- PoseGraph.Optimize: a negative count (g2o's -1 when it cannot start) is reported as success, as the code's `iters == 0` test does; a zero count is taken to leave the estimates untouched.
- **Shared scans.** The keyframe table is modelled as owning the scan it is given at insertion (pose_optimizer.cpp:151). Later changes made through the caller's shared `PointCloud::Ptr`, which `publishRefinedMap` would see (pose_optimizer.cpp:433-439), are not modelled.
- **Helpers without a row.** `PoseGraph.EdgeMeasurement`, `Odometry.Compose` and `PoseGraph.RefinedMap` are helpers; the rows of `PoseGraph.AddEdge`, `Odometry.UpdateIcpOdometry` and `Optimizer.PoseOptimizer.PublishRefinedMap` state what they compute.
- Optimizer.PoseOptimizer.PublishRefinedMap: the `tf::TransformException` the source swallows is not modelled; every keyframe scan is transformed.
