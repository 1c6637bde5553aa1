/**
 * LaserOdometryBase: the configuration and bookkeeping shared by every
 * laser-odometry estimator.  The estimator itself (the derived class) is
 * reached through two hooks, configureImpl() and process(scan, pose_2d);
 * their outcomes are inputs of the methods that call them.
 */
module LaserOdometryCore {
  import opened Tf
  import opened Messages

  datatype Option<T> = None | Some(value: T) {
    function GetOr(default: T): T {
      match this
      case Some(v) => v
      case None => default
    }
  }

  /** The private parameters configure() looks up; None when a parameter is not set. */
  datatype Params = Params(
    laserFrame: Option<string>,
    baseFrame: Option<string>,
    worldFrame: Option<string>,
    laserOdomFrame: Option<string>,
    covarianceDiag: Option<seq<real>>)

  const DefaultLaserFrame: string := "base_laser_link"
  const DefaultBaseFrame: string := "base_link"
  const DefaultWorldFrame: string := "world"
  const DefaultLaserOdomFrame: string := "odom"

  /** Length of the covariance diagonal: x, y, z, roll, pitch, yaw. */
  const CovarianceDiagSize: nat := 6

  /** The coefficient used on every axis when the configured diagonal is unusable. */
  const DefaultCovarianceCoefficient: real := 1.0e-9

  /** What the derived class's process(scan, pose_2d) reported and wrote. */
  datatype MatchResult = MatchResult(processed: bool, pose: Pose2D)

  /** std::vector::resize: keeps the first n entries and pads with zeros. */
  function Resize(v: seq<real>, n: nat): (r: seq<real>)
    ensures |r| == n
    ensures forall i :: 0 <= i < n && i < |v| ==> r[i] == v[i]
    ensures forall i :: |v| <= i < n ==> r[i] == 0.0
  {
    if n <= |v| then v[..n] else v + seq(n - |v|, _ => 0.0)
  }

  /** std::fill_n from the beginning of v: the first n entries become value. */
  method FillN(v: seq<real>, n: nat, value: real) returns (r: seq<real>)
    requires n <= |v|
    ensures |r| == |v|
    ensures forall i :: 0 <= i < n ==> r[i] == value
    ensures forall i :: n <= i < |v| ==> r[i] == v[i]
  {
    r := v;
    var i := 0;
    while i < n
      invariant 0 <= i <= n
      invariant |r| == |v|
      invariant forall k :: 0 <= k < i ==> r[k] == value
      invariant forall k :: i <= k < |v| ==> r[k] == v[k]
    {
      r := r[i := value];
      i := i + 1;
    }
  }

  /**
   * The covariance diagonal configure() settles on for the supplied vector:
   * the vector itself when it has exactly six entries, otherwise the default
   * coefficient on every axis (never a truncated or padded copy).
   */
  function ResolvedCovariance(supplied: seq<real>): (r: seq<real>)
    ensures |r| == CovarianceDiagSize
    ensures r == supplied <==> |supplied| == CovarianceDiagSize
    ensures |supplied| != CovarianceDiagSize ==>
              forall i :: 0 <= i < |r| ==> r[i] == DefaultCovarianceCoefficient
  {
    if |supplied| == CovarianceDiagSize then supplied
    else seq(CovarianceDiagSize, _ => DefaultCovarianceCoefficient)
  }

  /**
   * The covariance step of configure(): take the supplied diagonal when it
   * has six entries, otherwise resize the current one to six and fill it
   * with the default coefficient.
   */
  method ConfigureCovariance(current: seq<real>, supplied: seq<real>) returns (r: seq<real>)
    ensures r == ResolvedCovariance(supplied)
  {
    if |supplied| == CovarianceDiagSize {
      r := supplied;
    } else {
      var resized := Resize(current, CovarianceDiagSize);
      r := FillN(resized, CovarianceDiagSize, DefaultCovarianceCoefficient);
    }
  }

  /** Entry (i, j) of a row-major 6x6 covariance. */
  function At(c: seq<real>, i: nat, j: nat): real
    requires |c| == CovarianceSize && i < CovarianceDiagSize && j < CovarianceDiagSize
  {
    c[CovarianceDiagSize * i + j]
  }

  /** The 6x6 covariance whose diagonal is d, laid out as fillCovariance writes it. */
  function DiagonalCovariance(d: seq<real>): (r: seq<real>)
    requires |d| == CovarianceDiagSize
    ensures |r| == CovarianceSize
    ensures forall i, j :: 0 <= i < CovarianceDiagSize && 0 <= j < CovarianceDiagSize ==>
              At(r, i, j) == if i == j then d[i] else 0.0
  {
    [d[0], 0.0,  0.0,  0.0,  0.0,  0.0,
     0.0,  d[1], 0.0,  0.0,  0.0,  0.0,
     0.0,  0.0,  d[2], 0.0,  0.0,  0.0,
     0.0,  0.0,  0.0,  d[3], 0.0,  0.0,
     0.0,  0.0,  0.0,  0.0,  d[4], 0.0,
     0.0,  0.0,  0.0,  0.0,  0.0,  d[5]]
  }

  /** A 6x6 covariance with every off-diagonal entry zero. */
  predicate IsDiagonal(c: seq<real>)
    requires |c| == CovarianceSize
  {
    forall i, j :: 0 <= i < CovarianceDiagSize && 0 <= j < CovarianceDiagSize && i != j ==>
      At(c, i, j) == 0.0
  }

  /** The diagonal of a 6x6 covariance, in (x, y, z, roll, pitch, yaw) order. */
  function DiagonalOf(c: seq<real>): (d: seq<real>)
    requires |c| == CovarianceSize
    ensures |d| == CovarianceDiagSize
  {
    seq(CovarianceDiagSize, i requires 0 <= i < CovarianceDiagSize => At(c, i, i))
  }

  /** fillCovariance produces a diagonal matrix whose diagonal is exactly d. */
  lemma DiagonalCovarianceRoundTrip(d: seq<real>)
    requires |d| == CovarianceDiagSize
    ensures IsDiagonal(DiagonalCovariance(d))
    ensures DiagonalOf(DiagonalCovariance(d)) == d
  {
  }

  /** Every diagonal 6x6 covariance is the one built from its own diagonal. */
  lemma DiagonalOfRoundTrip(c: seq<real>)
    requires |c| == CovarianceSize && IsDiagonal(c)
    ensures DiagonalCovariance(DiagonalOf(c)) == c
  {
    var r := DiagonalCovariance(DiagonalOf(c));
    forall k | 0 <= k < CovarianceSize
      ensures r[k] == c[k]
    {
      var i, j := k / CovarianceDiagSize, k % CovarianceDiagSize;
      assert k == CovarianceDiagSize * i + j;
      assert At(r, i, j) == At(c, i, j);
    }
  }

  /**
   * The base class's state.  T is the transform type of the tf library tf,
   * which the estimator is built with.
   */
  class LaserOdometryBase<T(==)> {
    const tf: TfLibrary<T>

    var laserFrame: string
    var baseFrame: string
    var worldFrame: string
    var laserOdomFrame: string

    var baseToLaser: T
    var laserToBase: T
    var relativeTf: T
    var worldOrigin: T
    var worldToBase: T
    var guessRelativeTf: T
    var worldOriginToBase: T

    var defaultCovariance: seq<real>
    var configured: bool
    var currentTime: Time

    /** The laser extrinsic and its inverse are kept together. */
    ghost predicate Valid()
      reads this
    {
      IdentitySelfInverse(tf) && laserToBase == tf.inverse(baseToLaser)
    }

    /** A fresh estimator: every transform identity, nothing configured yet. */
    constructor (tf: TfLibrary<T>)
      requires IdentitySelfInverse(tf)
      ensures Valid() && this.tf == tf
      ensures laserFrame == "" && baseFrame == "" && worldFrame == "" && laserOdomFrame == ""
      ensures baseToLaser == tf.identity && relativeTf == tf.identity && worldOrigin == tf.identity
      ensures worldToBase == tf.identity && guessRelativeTf == tf.identity
      ensures worldOriginToBase == tf.identity
      ensures defaultCovariance == [] && !configured && currentTime == Time(0, 0)
    {
      this.tf := tf;
      laserFrame, baseFrame, worldFrame, laserOdomFrame := "", "", "", "";
      baseToLaser, laserToBase, relativeTf := tf.identity, tf.identity, tf.identity;
      worldOrigin, worldToBase, guessRelativeTf := tf.identity, tf.identity, tf.identity;
      worldOriginToBase := tf.identity;
      defaultCovariance := [];
      configured := false;
      currentTime := Time(0, 0);
    }

    /** getEstimatedPose(): the world-origin-to-base pose, and nothing else. */
    function GetEstimatedPose(): T
      reads this`worldOriginToBase
    {
      worldOriginToBase
    }

    /** reset(): left to the derived class; the base changes nothing. */
    method Reset()
      ensures GetEstimatedPose() == old(GetEstimatedPose())
    {
    }

    /**
     * configure(): resolves the frame names and the covariance diagonal from
     * params, resets six transforms to identity (world_origin_to_base_ is
     * left alone) and latches the derived class's configureImpl() result.
     */
    method Configure(params: Params, configureImpl: bool) returns (ok: bool)
      requires IdentitySelfInverse(tf)
      modifies this`laserFrame, this`baseFrame, this`worldFrame, this`laserOdomFrame
      modifies this`baseToLaser, this`laserToBase, this`relativeTf, this`worldOrigin
      modifies this`worldToBase, this`guessRelativeTf, this`defaultCovariance, this`configured
      ensures Valid()
      ensures laserFrame == params.laserFrame.GetOr(DefaultLaserFrame)
      ensures baseFrame == params.baseFrame.GetOr(DefaultBaseFrame)
      ensures worldFrame == params.worldFrame.GetOr(DefaultWorldFrame)
      ensures laserOdomFrame == params.laserOdomFrame.GetOr(DefaultLaserOdomFrame)
      ensures baseToLaser == tf.identity && laserToBase == tf.identity && relativeTf == tf.identity
      ensures worldOrigin == tf.identity && worldToBase == tf.identity
      ensures guessRelativeTf == tf.identity
      ensures defaultCovariance == ResolvedCovariance(params.covarianceDiag.GetOr([]))
      ensures ok == configureImpl && Configured() == configureImpl
    {
      ResolveFrames(params);
      ResetTransforms();
      defaultCovariance := ConfigureCovariance(defaultCovariance, params.covarianceDiag.GetOr([]));
      configured := configureImpl;
      ok := configured;
    }

    /** The frame-name lookups of configure(), each with its default. */
    method ResolveFrames(params: Params)
      modifies this`laserFrame, this`baseFrame, this`worldFrame, this`laserOdomFrame
      ensures laserFrame == params.laserFrame.GetOr(DefaultLaserFrame)
      ensures baseFrame == params.baseFrame.GetOr(DefaultBaseFrame)
      ensures worldFrame == params.worldFrame.GetOr(DefaultWorldFrame)
      ensures laserOdomFrame == params.laserOdomFrame.GetOr(DefaultLaserOdomFrame)
    {
      laserFrame := params.laserFrame.GetOr(DefaultLaserFrame);
      baseFrame := params.baseFrame.GetOr(DefaultBaseFrame);
      worldFrame := params.worldFrame.GetOr(DefaultWorldFrame);
      laserOdomFrame := params.laserOdomFrame.GetOr(DefaultLaserOdomFrame);
    }

    /** configure() sets six transforms to identity; world_origin_to_base_ is not among them. */
    method ResetTransforms()
      requires IdentitySelfInverse(tf)
      modifies this`baseToLaser, this`laserToBase, this`relativeTf, this`worldOrigin
      modifies this`worldToBase, this`guessRelativeTf
      ensures Valid()
      ensures baseToLaser == tf.identity && laserToBase == tf.identity && relativeTf == tf.identity
      ensures worldOrigin == tf.identity && worldToBase == tf.identity
      ensures guessRelativeTf == tf.identity
    {
      baseToLaser := tf.identity;
      laserToBase := tf.identity;
      relativeTf := tf.identity;
      worldOrigin := tf.identity;
      worldToBase := tf.identity;
      guessRelativeTf := tf.identity;
    }

    /** configured(). */
    function Configured(): bool
      reads this`configured
    {
      configured
    }

    function GetOrigin(): T
      reads this`worldOrigin
    {
      worldOrigin
    }

    method SetOrigin(origin: T)
      modifies this`worldOrigin
      ensures GetOrigin() == origin
    {
      worldOrigin := origin;
    }

    function GetInitialGuess(): T
      reads this`guessRelativeTf
    {
      guessRelativeTf
    }

    method SetInitialGuess(guess: T)
      modifies this`guessRelativeTf
      ensures GetInitialGuess() == guess
    {
      guessRelativeTf := guess;
    }

    function GetLaserPose(): T
      reads this`baseToLaser
    {
      baseToLaser
    }

    /** setLaserPose(): stores the extrinsic together with its inverse. */
    method SetLaserPose(baseToLaserPose: T)
      requires Valid()
      modifies this`baseToLaser, this`laserToBase
      ensures Valid()
      ensures GetLaserPose() == baseToLaserPose && laserToBase == tf.inverse(baseToLaserPose)
    {
      baseToLaser := baseToLaserPose;
      laserToBase := tf.inverse(baseToLaserPose);
    }

    /** predict(): the base motion model ignores its input and reads no state. */
    function Predict(guess: T): (r: T)
      ensures r == tf.identity
    {
      tf.identity
    }

    /** fillCovariance(): writes the diagonal-only 6x6 matrix of default_covariance_. */
    method FillCovariance(covariance: array<real>)
      requires covariance.Length == CovarianceSize
      requires |defaultCovariance| == CovarianceDiagSize
      modifies covariance
      ensures covariance[..] == DiagonalCovariance(defaultCovariance)
    {
      var c := DiagonalCovariance(defaultCovariance);
      forall k | 0 <= k < CovarianceSize {
        covariance[k] := c[k];
      }
    }

    /**
     * process(scan, odom): runs the derived matcher (its outcome is matched)
     * and fills odom from the planar pose it produced, whatever it reported.
     */
    method Process(scan: LaserScan, odom: Odometry, matched: MatchResult) returns (processed: bool)
      requires odom.Valid()
      requires |defaultCovariance| == CovarianceDiagSize
      modifies odom, odom.poseCovariance
      ensures odom.Valid()
      ensures processed == matched.processed
      ensures odom.header == old(odom.header).(stamp := scan.header.stamp, frameId := laserOdomFrame)
      ensures odom.pose.position == Point(matched.pose.x, matched.pose.y, 0.0)
      ensures odom.pose.orientation == tf.quaternionFromYaw(matched.pose.theta)
      ensures odom.poseCovariance[..] == DiagonalCovariance(defaultCovariance)
      ensures odom.childFrameId == old(odom.childFrameId) && odom.twist == old(odom.twist)
    {
      processed := matched.processed;
      odom.header := odom.header.(stamp := scan.header.stamp, frameId := laserOdomFrame);
      odom.pose := Pose(Point(matched.pose.x, matched.pose.y, 0.0),
                        tf.quaternionFromYaw(matched.pose.theta));
      FillCovariance(odom.poseCovariance);
    }

    /**
     * fillPose2DMsg(): the planar projection of the estimated pose.  Its
     * reads frame is the point: the result depends on world_origin_to_base_
     * alone, so Configure, SetOrigin and the other setters leave it unchanged.
     */
    function FillPose2DMsg(): (pose: Pose2D)
      reads this`worldOriginToBase
      ensures pose.x == tf.originX(GetEstimatedPose()) && pose.y == tf.originY(GetEstimatedPose())
      ensures pose.theta == tf.yaw(tf.rotation(GetEstimatedPose()))
    {
      Pose2D(tf.originX(worldOriginToBase), tf.originY(worldOriginToBase),
             tf.yaw(tf.rotation(worldOriginToBase)))
    }

    /** fillOdomMsg(): stamps odom with the scan time and fills it from the estimated pose. */
    method FillOdomMsg(currentScan: LaserScan, odom: Odometry)
      modifies odom
      ensures odom.header == old(odom.header).(stamp := currentScan.header.stamp, frameId := laserOdomFrame)
      ensures odom.pose.position == Point(FillPose2DMsg().x, FillPose2DMsg().y, 0.0)
      ensures odom.pose.orientation == tf.rotation(GetEstimatedPose())
      ensures odom.childFrameId == old(odom.childFrameId) && odom.twist == old(odom.twist)
    {
      odom.header := odom.header.(stamp := currentScan.header.stamp, frameId := laserOdomFrame);
      odom.pose := Pose(Point(tf.originX(worldOriginToBase), tf.originY(worldOriginToBase), 0.0),
                        tf.rotation(worldOriginToBase));
    }

    function GetFrameBase(): string
      reads this`baseFrame
    {
      baseFrame
    }

    function GetFrameLaser(): string
      reads this`laserFrame
    {
      laserFrame
    }

    function GetFrameWorld(): string
      reads this`worldFrame
    {
      worldFrame
    }

    function GetFrameOdom(): string
      reads this`laserOdomFrame
    {
      laserOdomFrame
    }

    method SetFrameBase(frame: string)
      modifies this`baseFrame
      ensures GetFrameBase() == frame
    {
      baseFrame := frame;
    }

    method SetFrameLaser(frame: string)
      modifies this`laserFrame
      ensures GetFrameLaser() == frame
    {
      laserFrame := frame;
    }

    method SetFrameWorld(frame: string)
      modifies this`worldFrame
      ensures GetFrameWorld() == frame
    {
      worldFrame := frame;
    }

    method SetFrameOdom(frame: string)
      modifies this`laserOdomFrame
      ensures GetFrameOdom() == frame
    {
      laserOdomFrame := frame;
    }

    function GetCurrentTime(): Time
      reads this`currentTime
    {
      currentTime
    }
  }

  /**
   * A caller's view of the covariance fallback: an estimator configured with
   * a three-entry diagonal reports the default coefficient on every axis of
   * the covariance that process(scan, odom) writes.
   */
  method MisconfiguredCovarianceScenario<T(==)>(tf: TfLibrary<T>, scan: LaserScan, matched: MatchResult)
    returns (processed: bool, odom: Odometry)
    requires IdentitySelfInverse(tf)
    ensures processed == matched.processed
    ensures odom.Valid()
    ensures forall i, j :: 0 <= i < CovarianceDiagSize && 0 <= j < CovarianceDiagSize ==>
              At(odom.poseCovariance[..], i, j) == if i == j then DefaultCovarianceCoefficient else 0.0
  {
    var estimator := new LaserOdometryBase(tf);
    var params := Params(None, None, None, None, Some([1.0, 2.0, 3.0]));
    var ok := estimator.Configure(params, true);
    odom := new Odometry();
    processed := estimator.Process(scan, odom, matched);
  }
}
