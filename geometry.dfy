/** Values shared by the odometer and the pose graph: timestamps, positions,
    orientations, covariances, point clouds and 6-DOF poses, together with the
    floating-point operations of Eigen, g2o and PCL that the core calls but
    does not implement. Those operations are uninterpreted here: each is a
    field of a bundle datatype that the owning object is constructed with. */
module Geometry {

  /** ros::Time */
  type Time
  /** A quaternion (Eigen::Quaterniond); its arithmetic is left to Eigen. */
  type Quat
  /** A 6x6 matrix: a pose covariance or an edge information matrix. */
  type Mat6
  /** A rigid transform as g2o stores a vertex estimate (g2o::SE3Quat / Isometry3). */
  type SE3
  /** The 4x4 transform that scan registration returns. */
  type Transform
  /** One point of a cloud. */
  type Point

  /** A point cloud is the ordered sequence of its points. */
  type Cloud = seq<Point>

  /** A position. Arithmetic on the components is exact here (see README). */
  datatype Vec3 = Vec3(x: real, y: real, z: real)
  {
    function Plus(v: Vec3): Vec3 {
      Vec3(x + v.x, y + v.y, z + v.z)
    }

    /** The position scaled by -1.0. */
    function Negated(): (r: Vec3)
      ensures r.Plus(this) == Vec3(0.0, 0.0, 0.0)
      ensures r.x == -x && r.y == -y && r.z == -z
    {
      Vec3(-x, -y, -z)
    }
  }

  /** Pose6DOF: a stamped pose with its covariance. */
  datatype Pose6DOF = Pose6DOF(stamp: Time, pos: Vec3, rot: Quat, cov: Mat6)
  {
    /** The same pose with its position negated, orientation, stamp and covariance kept. */
    function WithNegatedPosition(): (r: Pose6DOF)
      ensures r.pos.Plus(pos) == Vec3(0.0, 0.0, 0.0)
      ensures r.stamp == stamp && r.rot == rot && r.cov == cov
    {
      this.(pos := pos.Negated())
    }
  }

  /** The Eigen and g2o operations on poses that the core calls. */
  datatype PoseMath = PoseMath(
    /** prev_pose.rot.toRotationMatrix() * t */
    rotate: (Quat, Vec3) -> Vec3,
    /** Quaternion product. */
    multiply: (Quat, Quat) -> Quat,
    /** Quaternion::normalize() */
    normalize: Quat -> Quat,
    /** Matrix inverse of a 6x6 covariance. */
    invert: Mat6 -> Mat6,
    /** g2o::SE3Quat(rot, pos) */
    toSE3: (Quat, Vec3) -> SE3,
    /** Pose6DOF(estimate.matrix()) */
    toPose: SE3 -> Pose6DOF,
    /** Isometry product a * b. */
    compose: (SE3, SE3) -> SE3,
    /** Isometry inverse. */
    inverse: SE3 -> SE3,
    /** Translation part of a registration transform. */
    translationOf: Transform -> Vec3,
    /** Rotation part of a registration transform, as a quaternion. */
    rotationOf: Transform -> Quat,
    /** A default-constructed Pose6DOF; its covariance is the one a new pose starts with. */
    defaultPose: Pose6DOF)

  /** What one GICP alignment reports. */
  datatype Alignment = Alignment(transform: Transform, converged: bool)

  /** The PCL operations on clouds that the core calls. */
  datatype CloudOps = CloudOps(
    /** VoxelGrid filtering with a leaf size of 0.05. */
    downsample: Cloud -> Cloud,
    /** GICP registration of a source cloud onto a target cloud. */
    register: (Cloud, Cloud) -> Alignment,
    /** pcl_ros::transformPointCloud by a pose. */
    transform: (Cloud, Pose6DOF) -> Cloud)
}
