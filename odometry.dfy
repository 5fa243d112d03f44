/** The ICP odometer's state machine as values. Two input streams drive it: robot
    odometry samples and assembled clouds. Each callback is a function from the
    old state to the new one; the class in module IcpNode is proved against
    these functions, and the lemmas below state what every interleaving of the
    two streams preserves. */
module Odometry {
  import opened Geometry

  /** nav_msgs::Odometry as the callback reads it. */
  datatype OdomMsg = OdomMsg(stamp: Time, pos: Vec3, rot: Quat, cov: Mat6)

  /** One entry of a nav_msgs::Path. */
  datatype PathPose = PathPose(stamp: Time, pos: Vec3, rot: Quat)

  /** What the odometer is built with: the pose and cloud operations it calls, the pose
      distance the gating measures (lengthOfVector(differenceBetweenPoses(..))) and
      POSE_DIST_THRESH. */
  datatype Config = Config(
    math: PoseMath,
    clouds: CloudOps,
    poseDistance: (PathPose, PathPose) -> real,
    poseDistThresh: real)

  datatype OdomState = OdomState(
    inited: bool,                    // robot_odom_inited_
    robotPoses: seq<Pose6DOF>,       // robot_odom_poses_
    icpPoses: seq<Pose6DOF>,         // icp_odom_poses_
    robotPath: seq<PathPose>,        // robot_odom_path_.poses
    icpPath: seq<PathPose>,          // icp_odom_path_.poses
    prevCloud: Cloud,                // *prev_cloud_
    currCloud: Cloud)                // *curr_cloud_

  /** The state right after construction: not initialised, empty histories and clouds. */
  const Initial := OdomState(false, [], [], [], [], [], [])

  /** The invariant every reachable state keeps. */
  ghost predicate Inv(s: OdomState) {
    && (s.inited <==> |s.robotPath| > 0)
    && (s.inited <==> |s.icpPoses| > 0)
    && (s.inited <==> |s.robotPoses| > 0)
    && |s.robotPath| <= |s.robotPoses|
    && |s.icpPath| == |s.icpPoses|
  }

  lemma InitialInv()
    ensures Inv(Initial) && !Initial.inited
  {
  }

  function MsgPose(msg: OdomMsg): Pose6DOF {
    Pose6DOF(msg.stamp, msg.pos, msg.rot, msg.cov)
  }

  function MsgPathPose(msg: OdomMsg): PathPose {
    PathPose(msg.stamp, msg.pos, msg.rot)
  }

  function Last<T>(s: seq<T>): T
    requires |s| > 0
  {
    s[|s| - 1]
  }

  /** A sample closer than the threshold to the last robot-path entry is not added to the path. */
  predicate Gated(cfg: Config, s: OdomState, msg: OdomMsg) {
    |s.robotPath| > 0 && cfg.poseDistance(Last(s.robotPath), MsgPathPose(msg)) < cfg.poseDistThresh
  }

  /** robotOdometryCallback. */
  function OnRobotOdometry(cfg: Config, s: OdomState, msg: OdomMsg): (r: OdomState)
    ensures Inv(s) ==> Inv(r) && r.inited
    // every sample is recorded, before any gating
    ensures r.robotPoses == s.robotPoses + [MsgPose(msg)]
    // the first sample seeds the ICP history and initialises the odometer; later ones leave both alone
    ensures |s.robotPath| == 0 ==> r.icpPoses == s.icpPoses + [MsgPose(msg)] && r.icpPath == s.icpPath + [MsgPathPose(msg)]
    ensures |s.robotPath| > 0 ==> r.icpPoses == s.icpPoses && r.icpPath == s.icpPath
    // the path grows by the sample exactly when it is not gated
    ensures r.robotPath == if Gated(cfg, s, msg) then s.robotPath else s.robotPath + [MsgPathPose(msg)]
    ensures r.prevCloud == s.prevCloud && r.currCloud == s.currCloud
  {
    var pose := MsgPose(msg);
    var s1 := s.(robotPoses := s.robotPoses + [pose]);
    if |s.robotPath| > 0 && cfg.poseDistance(Last(s.robotPath), MsgPathPose(msg)) < cfg.poseDistThresh then
      s1
    else
      var s2 :=
        if |s.robotPath| > 0 then s1
        else s1.(icpPoses := s.icpPoses + [pose], inited := true, icpPath := s.icpPath + [MsgPathPose(msg)]);
      s2.(robotPath := s.robotPath + [MsgPathPose(msg)])
  }

  /** The ICP increment (t, q) composed onto a pose: position prev.pos + R(prev.rot) t,
      rotation normalize(prev.rot q), stamped now, with the covariance of a default-constructed pose. */
  function Compose(math: PoseMath, prev: Pose6DOF, t: Vec3, q: Quat, now: Time): Pose6DOF {
    Pose6DOF(now, prev.pos.Plus(math.rotate(prev.rot, t)), math.normalize(math.multiply(prev.rot, q)), math.defaultPose.cov)
  }

  /** updateICPOdometry: one pose is appended, composed onto the latest robot-odometry pose. */
  function UpdateIcpOdometry(cfg: Config, s: OdomState, transform: Transform, now: Time): (r: OdomState)
    requires |s.robotPoses| > 0
    ensures Inv(s) ==> Inv(r)
    ensures |r.icpPoses| == |s.icpPoses| + 1 && r.icpPoses[..|s.icpPoses|] == s.icpPoses
    ensures |r.icpPath| == |s.icpPath| + 1 && r.icpPath[..|s.icpPath|] == s.icpPath
    ensures Last(r.icpPoses) ==
      Compose(cfg.math, Last(s.robotPoses), cfg.math.translationOf(transform), cfg.math.rotationOf(transform), now)
    ensures Last(r.icpPath) == PathPose(now, Last(r.icpPoses).pos, Last(r.icpPoses).rot)
    ensures r == s.(icpPoses := r.icpPoses, icpPath := r.icpPath)
  {
    var t := cfg.math.translationOf(transform);
    var q := cfg.math.rotationOf(transform);
    var pose := Compose(cfg.math, Last(s.robotPoses), t, q, now);
    var r := s.(icpPoses := s.icpPoses + [pose], icpPath := s.icpPath + [PathPose(now, pose.pos, pose.rot)]);
    assert r.icpPoses[..|s.icpPoses|] == s.icpPoses;
    assert r.icpPath[..|s.icpPath|] == s.icpPath;
    r
  }

  /** Registration runs only with a non-empty previous cloud, and only once initialised. */
  predicate RegistrationRuns(s: OdomState) {
    |s.prevCloud| > 0 && s.inited
  }

  /** The alignment of the previous cloud onto the current downsampled one. */
  function AlignmentOf(cfg: Config, s: OdomState, raw: Cloud): Alignment {
    cfg.clouds.register(s.prevCloud, cfg.clouds.downsample(raw))
  }

  /** assembledCloudCallback. */
  function OnAssembledCloud(cfg: Config, s: OdomState, raw: Cloud, now: Time): (r: OdomState)
    requires Inv(s)
    ensures Inv(r)
    // the previous cloud always advances to the current downsampled one
    ensures r.prevCloud == cfg.clouds.downsample(raw) && r.currCloud == r.prevCloud
    // the ICP history grows by one exactly when registration ran and converged
    ensures |r.icpPoses| == |s.icpPoses| + (if RegistrationRuns(s) && AlignmentOf(cfg, s, raw).converged then 1 else 0)
    ensures r.icpPoses[..|s.icpPoses|] == s.icpPoses
    ensures RegistrationRuns(s) && AlignmentOf(cfg, s, raw).converged ==>
      Last(r.icpPoses) == Compose(cfg.math, Last(s.robotPoses),
        cfg.math.translationOf(AlignmentOf(cfg, s, raw).transform), cfg.math.rotationOf(AlignmentOf(cfg, s, raw).transform), now)
    // the ICP path gains the new pose's entry, stamped now, exactly when the history does
    ensures r.icpPath == s.icpPath +
      if RegistrationRuns(s) && AlignmentOf(cfg, s, raw).converged
      then [PathPose(now, Last(r.icpPoses).pos, Last(r.icpPoses).rot)] else []
    ensures r.inited == s.inited && r.robotPoses == s.robotPoses && r.robotPath == s.robotPath
  {
    var curr := cfg.clouds.downsample(raw);
    var s1 := s.(currCloud := curr);
    var s2 :=
      if |s.prevCloud| > 0 && s.inited then
        var alignment := cfg.clouds.register(s.prevCloud, curr);
        if alignment.converged then UpdateIcpOdometry(cfg, s1, alignment.transform, now) else s1
      else s1;
    s2.(prevCloud := curr)
  }

  /** One input of either stream. */
  datatype Event =
    | RobotOdometry(msg: OdomMsg)
    | AssembledCloud(raw: Cloud, now: Time)

  function Step(cfg: Config, s: OdomState, e: Event): (r: OdomState)
    requires Inv(s)
    ensures Inv(r)
  {
    match e
    case RobotOdometry(msg) => OnRobotOdometry(cfg, s, msg)
    case AssembledCloud(raw, now) => OnAssembledCloud(cfg, s, raw, now)
  }

  /** The state after the events, in order. */
  function Run(cfg: Config, s: OdomState, events: seq<Event>): (r: OdomState)
    requires Inv(s)
    ensures Inv(r)
    decreases |events|
  {
    if events == [] then s else Run(cfg, Step(cfg, s, events[0]), events[1..])
  }

  /** The poses of the robot-odometry samples among the events, in order. */
  function SamplePoses(events: seq<Event>): seq<Pose6DOF> {
    if events == [] then []
    else (if events[0].RobotOdometry? then [MsgPose(events[0].msg)] else []) + SamplePoses(events[1..])
  }

  function CloudCount(events: seq<Event>): nat {
    if events == [] then 0 else (if events[0].AssembledCloud? then 1 else 0) + CloudCount(events[1..])
  }

  /** Once initialised, the odometer stays initialised. */
  lemma {:induction false} InitedIsStable(cfg: Config, s: OdomState, events: seq<Event>)
    requires Inv(s) && s.inited
    ensures Run(cfg, s, events).inited
    decreases |events|
  {
    if events != [] {
      InitedIsStable(cfg, Step(cfg, s, events[0]), events[1..]);
    }
  }

  lemma StepRecordsSample(cfg: Config, s: OdomState, e: Event)
    requires Inv(s)
    ensures Step(cfg, s, e).robotPoses == s.robotPoses + (if e.RobotOdometry? then [MsgPose(e.msg)] else [])
  {
  }

  lemma ConcatAssoc<T>(a: seq<T>, b: seq<T>, c: seq<T>)
    ensures a + b + c == a + (b + c)
  {
  }

  /** Every robot-odometry sample is recorded, in arrival order, whatever the clouds do. */
  lemma {:induction false} EverySampleRecorded(cfg: Config, s: OdomState, events: seq<Event>)
    requires Inv(s)
    ensures Run(cfg, s, events).robotPoses == s.robotPoses + SamplePoses(events)
    decreases |events|
  {
    if events != [] {
      var s1 := Step(cfg, s, events[0]);
      var head := if events[0].RobotOdometry? then [MsgPose(events[0].msg)] else [];
      StepRecordsSample(cfg, s, events[0]);
      EverySampleRecorded(cfg, s1, events[1..]);
      ConcatAssoc(s.robotPoses, head, SamplePoses(events[1..]));
    }
  }

  /** The ICP history never shrinks and gains at most one pose per cloud, plus the seed
      pose when the odometer was not yet initialised. */
  lemma {:induction false} IcpHistoryGrowth(cfg: Config, s: OdomState, events: seq<Event>)
    requires Inv(s)
    ensures var r := Run(cfg, s, events);
      && |s.icpPoses| <= |r.icpPoses|
      && r.icpPoses[..|s.icpPoses|] == s.icpPoses
      && |r.icpPoses| <= |s.icpPoses| + CloudCount(events) + (if s.inited then 0 else 1)
    decreases |events|
  {
    if events != [] {
      var s1 := Step(cfg, s, events[0]);
      IcpHistoryGrowth(cfg, s1, events[1..]);
      var r := Run(cfg, s, events);
      assert r.icpPoses[..|s1.icpPoses|] == s1.icpPoses;
      assert s1.icpPoses[..|s.icpPoses|] == s.icpPoses;
      assert r.icpPoses[..|s.icpPoses|] == r.icpPoses[..|s1.icpPoses|][..|s.icpPoses|];
    }
  }

  /** Before the first robot-odometry sample, clouds never produce an ICP pose: registration
      does not run. */
  lemma {:induction false} NoIcpPoseBeforeInit(cfg: Config, s: OdomState, events: seq<Event>)
    requires Inv(s) && !s.inited
    requires forall i :: 0 <= i < |events| ==> events[i].AssembledCloud?
    ensures !Run(cfg, s, events).inited && Run(cfg, s, events).icpPoses == []
    decreases |events|
  {
    if events != [] {
      NoIcpPoseBeforeInit(cfg, Step(cfg, s, events[0]), events[1..]);
    }
  }

  /** The previous cloud is the downsampled last cloud; robot-odometry samples do not touch it. */
  lemma {:induction false} PrevCloudIsLastCloud(cfg: Config, s: OdomState, events: seq<Event>, raw: Cloud, now: Time)
    requires Inv(s)
    requires forall i :: 0 <= i < |events| ==> events[i].RobotOdometry?
    ensures Run(cfg, s, [AssembledCloud(raw, now)] + events).prevCloud == cfg.clouds.downsample(raw)
    decreases |events|
  {
    var s1 := Step(cfg, s, AssembledCloud(raw, now));
    assert ([AssembledCloud(raw, now)] + events)[1..] == events;
    SamplesKeepPrevCloud(cfg, s1, events);
  }

  lemma {:induction false} SamplesKeepPrevCloud(cfg: Config, s: OdomState, events: seq<Event>)
    requires Inv(s)
    requires forall i :: 0 <= i < |events| ==> events[i].RobotOdometry?
    ensures Run(cfg, s, events).prevCloud == s.prevCloud
    decreases |events|
  {
    if events != [] {
      SamplesKeepPrevCloud(cfg, Step(cfg, s, events[0]), events[1..]);
    }
  }

  /** Motion gating: of two samples closer than the threshold, at most one joins the path; the
      second joins only when the first was gated, since each is compared with the last path
      entry rather than with the sample before it. */
  lemma CloseSamplesAddAtMostOne(cfg: Config, s: OdomState, m1: OdomMsg, m2: OdomMsg)
    requires Inv(s)
    requires cfg.poseDistance(MsgPathPose(m1), MsgPathPose(m2)) < cfg.poseDistThresh
    ensures |OnRobotOdometry(cfg, OnRobotOdometry(cfg, s, m1), m2).robotPath| <= |s.robotPath| + 1
  {
  }

  /** Two converged increments in a row: the robot sits at the origin with the
      identity orientation, and two clouds register with converged increments of (1,0,0) and
      then (0,1,0), neither rotating. Rotating by the identity and normalising the product of
      two identities are taken to be exact. */
  ghost predicate TwoIncrements(cfg: Config, s: OdomState, identity: Quat,
                                a1: Transform, a2: Transform, c1: Cloud, c2: Cloud)
  {
    && Inv(s) && s.inited && |s.prevCloud| > 0
    && Last(s.robotPoses).pos == Vec3(0.0, 0.0, 0.0) && Last(s.robotPoses).rot == identity
    && cfg.math.translationOf(a1) == Vec3(1.0, 0.0, 0.0) && cfg.math.rotationOf(a1) == identity
    && cfg.math.translationOf(a2) == Vec3(0.0, 1.0, 0.0) && cfg.math.rotationOf(a2) == identity
    && cfg.math.rotate(identity, Vec3(1.0, 0.0, 0.0)) == Vec3(1.0, 0.0, 0.0)
    && cfg.math.rotate(identity, Vec3(0.0, 1.0, 0.0)) == Vec3(0.0, 1.0, 0.0)
    && cfg.math.normalize(cfg.math.multiply(identity, identity)) == identity
    && |cfg.clouds.downsample(c1)| > 0
    && cfg.clouds.register(s.prevCloud, cfg.clouds.downsample(c1)) == Alignment(a1, true)
    && cfg.clouds.register(cfg.clouds.downsample(c1), cfg.clouds.downsample(c2)) == Alignment(a2, true)
  }

  /** The ICP increment is composed onto the latest robot-odometry pose, not onto the latest
      ICP pose: with no robot sample between the two clouds, the second increment replaces
      the first and the ICP pose ends at (0,1,0), not (1,1,0). */
  lemma IncrementsDoNotAccumulate(cfg: Config, s: OdomState, identity: Quat,
                                  a1: Transform, a2: Transform, c1: Cloud, c2: Cloud, now: Time)
    requires TwoIncrements(cfg, s, identity, a1, a2, c1, c2)
    ensures var r := OnAssembledCloud(cfg, OnAssembledCloud(cfg, s, c1, now), c2, now);
      Last(r.icpPoses).pos == Vec3(0.0, 1.0, 0.0) && Last(r.icpPoses).rot == identity
  {
    var s1 := OnAssembledCloud(cfg, s, c1, now);
    assert AlignmentOf(cfg, s1, c2) == Alignment(a2, true);
    assert Last(s1.robotPoses) == Last(s.robotPoses);
  }

  /** With a robot sample at (1,0,0) arriving between the two clouds, the second increment is
      composed onto it and the ICP pose reaches (1,1,0). */
  lemma SampleBetweenIncrements(cfg: Config, s: OdomState, identity: Quat,
                                a1: Transform, a2: Transform, c1: Cloud, c2: Cloud, now: Time, m: OdomMsg)
    requires TwoIncrements(cfg, s, identity, a1, a2, c1, c2)
    requires m.pos == Vec3(1.0, 0.0, 0.0) && m.rot == identity
    ensures var r := OnAssembledCloud(cfg, OnRobotOdometry(cfg, OnAssembledCloud(cfg, s, c1, now), m), c2, now);
      Last(r.icpPoses).pos == Vec3(1.0, 1.0, 0.0) && Last(r.icpPoses).rot == identity
  {
    var s1 := OnAssembledCloud(cfg, s, c1, now);
    var s2 := OnRobotOdometry(cfg, s1, m);
    assert s2.prevCloud == cfg.clouds.downsample(c1);
    assert AlignmentOf(cfg, s2, c2) == Alignment(a2, true);
    assert Last(s2.robotPoses) == MsgPose(m);
  }
}
