/** ICPOdometer: the object whose two callbacks update its pose histories, paths and
    clouds in place. Each method is proved to take the state to what the matching
    function of module Odometry computes. */
module IcpNode {
  import opened Geometry
  import opened Odometry

  class IcpOdometer {
    const cfg: Config

    var robotOdomInited: bool
    var robotOdomPoses: seq<Pose6DOF>
    var icpOdomPoses: seq<Pose6DOF>
    var robotOdomPath: seq<PathPose>
    var icpOdomPath: seq<PathPose>
    var prevCloud: Cloud
    var currCloud: Cloud

    /** The fields as one value. */
    function State(): OdomState
      reads this
    {
      OdomState(robotOdomInited, robotOdomPoses, icpOdomPoses, robotOdomPath, icpOdomPath, prevCloud, currCloud)
    }

    ghost predicate Valid()
      reads this
    {
      Inv(State())
    }

    /** Starts uninitialised, with empty histories and empty clouds. */
    constructor (cfg: Config)
      ensures this.cfg == cfg
      ensures State() == Initial && Valid()
    {
      this.cfg := cfg;
      robotOdomInited := false;
      robotOdomPoses := [];
      icpOdomPoses := [];
      robotOdomPath := [];
      icpOdomPath := [];
      prevCloud := [];
      currCloud := [];
      new;
      InitialInv();
    }

    /** Ready exactly when a robot-odometry sample has arrived, which is also exactly when an
        ICP pose exists to read. */
    method IsOdomReady() returns (ready: bool)
      ensures ready == robotOdomInited
      ensures Valid() ==> (ready <==> |icpOdomPoses| > 0) && (ready <==> |robotOdomPoses| > 0)
    {
      ready := robotOdomInited;
    }

    method GetLatestPoseRobotOdometry() returns (pose: Pose6DOF)
      requires |robotOdomPoses| > 0
      ensures pose == robotOdomPoses[|robotOdomPoses| - 1] && pose in robotOdomPoses
    {
      pose := robotOdomPoses[|robotOdomPoses| - 1];
    }

    method GetLatestPoseIcpOdometry() returns (pose: Pose6DOF)
      requires |icpOdomPoses| > 0
      ensures pose == icpOdomPoses[|icpOdomPoses| - 1] && pose in icpOdomPoses
    {
      pose := icpOdomPoses[|icpOdomPoses| - 1];
    }

    /** The previous (downsampled) cloud together with the latest ICP pose. */
    method GetLatestCloud() returns (cloud: Cloud, pose: Pose6DOF)
      requires |icpOdomPoses| > 0
      ensures cloud == prevCloud
      ensures pose == icpOdomPoses[|icpOdomPoses| - 1] && pose in icpOdomPoses
    {
      cloud := prevCloud;
      pose := icpOdomPoses[|icpOdomPoses| - 1];
    }

    /** robotOdometryCallback */
    method RobotOdometryCallback(msg: OdomMsg)
      requires Valid()
      modifies this
      ensures Valid()
      ensures State() == OnRobotOdometry(cfg, old(State()), msg)
    {
      var pose := Pose6DOF(msg.stamp, msg.pos, msg.rot, msg.cov);
      robotOdomPoses := robotOdomPoses + [pose];
      var numPoses := |robotOdomPath|;
      if numPoses > 0 {
        var prevPose := robotOdomPath[numPoses - 1];
        var dist := cfg.poseDistance(prevPose, MsgPathPose(msg));
        if dist < cfg.poseDistThresh {
          return;
        }
      } else {
        icpOdomPoses := icpOdomPoses + [pose];
        robotOdomInited := true;
        icpOdomPath := icpOdomPath + [MsgPathPose(msg)];
      }
      robotOdomPath := robotOdomPath + [MsgPathPose(msg)];
    }

    /** updateICPOdometry: the registration transform composed onto the latest
        robot-odometry pose, appended to the ICP history and path, stamped now. */
    method UpdateIcpOdometry(transform: Transform, now: Time)
      requires |robotOdomPoses| > 0
      modifies this
      ensures State() == Odometry.UpdateIcpOdometry(cfg, old(State()), transform, now)
    {
      var t := cfg.math.translationOf(transform);
      var q := cfg.math.rotationOf(transform);
      var prevPose := GetLatestPoseRobotOdometry();
      var newPose := Pose6DOF(now, prevPose.pos.Plus(cfg.math.rotate(prevPose.rot, t)),
                              cfg.math.normalize(cfg.math.multiply(prevPose.rot, q)), cfg.math.defaultPose.cov);
      icpOdomPoses := icpOdomPoses + [newPose];
      icpOdomPath := icpOdomPath + [PathPose(now, newPose.pos, newPose.rot)];
    }

    /** assembledCloudCallback */
    method AssembledCloudCallback(raw: Cloud, now: Time)
      requires Valid()
      modifies this
      ensures Valid()
      ensures State() == OnAssembledCloud(cfg, old(State()), raw, now)
    {
      currCloud := cfg.clouds.downsample(raw);
      if |prevCloud| > 0 && robotOdomInited {
        var alignment := cfg.clouds.register(prevCloud, currCloud);
        if alignment.converged {
          UpdateIcpOdometry(alignment.transform, now);
        }
      }
      prevCloud := currCloud;
    }
  }
}
