/**
 * The ROS messages that LaserOdometryBase reads and writes: the laser scan,
 * the planar pose (geometry_msgs/Pose2D) and the odometry message
 * (nav_msgs/Odometry), which the caller owns and the base class fills in place.
 */
module Messages {
  import opened Tf

  /** ros::Time. */
  datatype Time = Time(sec: nat, nsec: nat)

  /** std_msgs/Header. */
  datatype Header = Header(sequence: nat, stamp: Time, frameId: string)

  /**
   * sensor_msgs/LaserScan without its time increments and intensities.  The
   * base class reads only header.stamp; the rest is what a matcher consumes.
   */
  datatype LaserScan = LaserScan(
    header: Header,
    angleMin: real, angleMax: real, angleIncrement: real,
    rangeMin: real, rangeMax: real,
    ranges: seq<real>)

  /** geometry_msgs/Pose2D. */
  datatype Pose2D = Pose2D(x: real, y: real, theta: real)

  /** geometry_msgs/Point. */
  datatype Point = Point(x: real, y: real, z: real)

  /** geometry_msgs/Pose. */
  datatype Pose = Pose(position: Point, orientation: Quaternion)

  /** geometry_msgs/TwistWithCovariance; the base class never writes it. */
  datatype Twist = Twist(linear: Vector3, angular: Vector3, covariance: seq<real>)

  /** Number of entries of a 6x6 row-major covariance (boost::array<double, 36>). */
  const CovarianceSize: nat := 36

  /** nav_msgs/Odometry; pose.covariance is the fixed-size buffer poseCovariance. */
  class Odometry {
    var header: Header
    var childFrameId: string
    var pose: Pose
    const poseCovariance: array<real>
    var twist: Twist

    ghost predicate Valid()
      reads this
    {
      poseCovariance.Length == CovarianceSize
    }

    /** A default-constructed message: every field zero or empty. */
    constructor ()
      ensures Valid() && fresh(poseCovariance)
      ensures header == Header(0, Time(0, 0), "") && childFrameId == ""
      ensures pose == Pose(Point(0.0, 0.0, 0.0), Quaternion(0.0, 0.0, 0.0, 0.0))
      ensures forall k :: 0 <= k < CovarianceSize ==> poseCovariance[k] == 0.0
    {
      header := Header(0, Time(0, 0), "");
      childFrameId := "";
      pose := Pose(Point(0.0, 0.0, 0.0), Quaternion(0.0, 0.0, 0.0, 0.0));
      poseCovariance := new real[CovarianceSize](_ => 0.0);
      twist := Twist(Vector3(0.0, 0.0, 0.0), Vector3(0.0, 0.0, 0.0), seq(CovarianceSize, _ => 0.0));
    }
  }
}
