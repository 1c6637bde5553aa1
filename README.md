# LaserOdometryBase in Dafny

This project models `LaserOdometryBase`, the base class of the `laser_odometry`
ROS package. A concrete laser-odometry estimator derives from it. The base
class does the configuration and bookkeeping around the estimator:

- it resolves four frame names (laser, base, world, odometry output) and a
  6-entry covariance diagonal from the node's private parameters;
- it resets six of its transforms (all but `world_origin_to_base_`) to
  identity and latches whether the derived class's own setup
  (`configureImpl()`) succeeded;
- it keeps the laser extrinsic (`base_to_laser_`) and its inverse
  (`laser_to_base_`) together;
- it holds the world origin and the initial guess, each with a getter and a
  setter (see the Getters line under "## Left out"), and the estimated pose
  (`world_origin_to_base_`), which it only reads;
- it wraps the derived matcher in `process(scan, odom)`, which stamps the
  caller's odometry message with the scan time and the odometry frame, copies
  the planar pose the matcher produced with z = 0, and fills a diagonal-only
  6x6 covariance;
- it emits the estimated pose as an odometry message (`fillOdomMsg`) or as a
  planar pose (`fillPose2DMsg`).

Files:

- `tf.dfy` (module `Tf`): what the base class uses from the tf library.
  Transforms are opaque. The class is generic in their type `T`. The tf
  operations it calls are fields of a `TfLibrary<T>` value and stay
  uninterpreted: the identity, `inverse()`, the origin's x and y,
  `getRotation()`, `getYaw` and `createQuaternionMsgFromYaw`. The one tf law
  the class relies on is that the identity is its own inverse
  (`IdentitySelfInverse`).
- `messages.dfy` (module `Messages`): the ROS messages involved. The laser
  scan, `Pose2D` and the message headers are values. `nav_msgs/Odometry` is
  a class, because the base class fills the caller's message in place. Its
  36-entry pose covariance is a fixed-size `array<real>`.
- `laser_odometry_core.dfy` (module `LaserOdometryCore`): the `Params` record
  holding the parameter lookups, the covariance functions, and the class
  `LaserOdometryBase` with the source's fields. Methods change state and say
  exactly which fields they may change (`modifies this`field`). Readers are
  functions that read only the field they return (`reads this`field`).
  `Valid()` is the class invariant `laser_to_base_ == inverse(base_to_laser_)`.

The derived class's hooks are inputs. `Configure` takes the result of
`configureImpl()` as a `bool`. `Process` takes what the inner
`process(scan, pose_2d)` reported and wrote, as a `MatchResult`.

## Model

| member | source | states |
|---|---|---|
| `LaserOdometryCore.LaserOdometryBase.Configure` | laser_odometry_core/src/laser_odometry_core.cpp:20-54 | Each frame is the supplied parameter or its default (`base_laser_link`, `base_link`, `world`, `odom`). The six transforms are identity. The covariance diagonal is `ResolvedCovariance` of the supplied vector, with a missing parameter read as empty. The result and `Configured()` both equal the `configureImpl()` outcome. Only the listed fields change, so `world_origin_to_base_` and the current time are untouched. The extrinsic invariant holds afterwards, whatever pair `base_to_laser_`/`laser_to_base_` held before. |
| `LaserOdometryCore.LaserOdometryBase.ResolveFrames` | laser_odometry_core/src/laser_odometry_core.cpp:22-25 | Each of the four frame names becomes the supplied parameter when it is set, otherwise the source's default string. Only the four frame fields change. |
| `LaserOdometryCore.LaserOdometryBase.ResetTransforms` | laser_odometry_core/src/laser_odometry_core.cpp:27-33 | `base_to_laser_`, `laser_to_base_`, `relative_tf_`, `world_origin_`, `world_to_base_` and `guess_relative_tf_` become identity. No other field changes, in particular not `world_origin_to_base_`. The invariant `laser_to_base_ == inverse(base_to_laser_)` holds afterwards from any prior state, since it needs only that the identity is its own inverse. |
| `LaserOdometryCore.ResolvedCovariance` | laser_odometry_core/src/laser_odometry_core.cpp:36-48 | The result always has six entries. It equals the supplied vector exactly when that vector has six entries (both directions), so nothing is truncated or padded. Otherwise every entry is `1e-9`. |
| `LaserOdometryCore.ConfigureCovariance` | laser_odometry_core/src/laser_odometry_core.cpp:39-48 | The covariance step of configure: take the supplied vector, or resize the current member vector to six and fill it with `1e-9`. Either way the result is `ResolvedCovariance(supplied)`, whatever the member held before. |
| `LaserOdometryCore.Resize` | laser_odometry_core/src/laser_odometry_core.cpp:46 | `std::vector::resize(n)`: the length becomes n, the first entries are kept and any new entries are zero. |
| `LaserOdometryCore.FillN` | laser_odometry_core/src/laser_odometry_core.cpp:47 | `std::fill_n(begin, n, value)`: the first n entries become `value` and the rest are unchanged. It needs at least n entries, which the preceding resize provides. |
| `LaserOdometryCore.DiagonalCovariance` | laser_odometry_core/src/laser_odometry_core.cpp:158-167 | The 36-entry row-major matrix that fillCovariance writes. Entry (i, j), at index 6*i+j, is `d[i]` when i == j and 0 otherwise. |
| `LaserOdometryCore.DiagonalCovarianceRoundTrip` | laser_odometry_core/src/laser_odometry_core.cpp:158-167 | The matrix built from d has only zero entries off the diagonal, and its diagonal, read back in (x, y, z, roll, pitch, yaw) order, is d. |
| `LaserOdometryCore.DiagonalOfRoundTrip` | laser_odometry_core/src/laser_odometry_core.cpp:158-167 | Conversely, every 36-entry matrix that is zero off the diagonal is the one fillCovariance builds from its own diagonal. So the covariance shape carries exactly six numbers. |
| `LaserOdometryCore.LaserOdometryBase.FillCovariance` | laser_odometry_core/src/laser_odometry_core.cpp:158-167 | With a six-entry `default_covariance_`, the caller's 36-entry buffer becomes `DiagonalCovariance(default_covariance_)`. Only that buffer changes. |
| `LaserOdometryCore.LaserOdometryBase.Process` | laser_odometry_core/src/laser_odometry_core.cpp:102-125 | Returns the inner process result. Whatever that result, the odometry header's stamp is the scan's stamp and its frame id is `laser_odom_frame_`, with the header sequence number kept. Position x and y are the inner planar pose's, and z is 0. The orientation is the quaternion of the inner yaw. The pose covariance is filled. The child frame and twist are unchanged, and the estimator's own state is not modified. |
| `LaserOdometryCore.LaserOdometryBase.FillOdomMsg` | laser_odometry_core/src/laser_odometry_core.cpp:137-149 | Stamps the message like `Process`. The position is the x and y of `FillPose2DMsg` with z = 0, so both emissions agree. The orientation is the full rotation of the estimated pose. The covariance, child frame and twist are not written. |
| `LaserOdometryCore.LaserOdometryBase.FillPose2DMsg` | laser_odometry_core/src/laser_odometry_core.cpp:151-156 | x and y are the origin of `GetEstimatedPose()`, and theta is the yaw of its rotation. It reads `world_origin_to_base_` and nothing else. |
| `LaserOdometryCore.LaserOdometryBase.Reset` | laser_odometry_core/src/laser_odometry_core.cpp:10-18 | The base `reset()` changes nothing: it has no modifies clause, and the estimated pose returned by `getEstimatedPose()` is the same afterwards. |
| `LaserOdometryCore.LaserOdometryBase.Predict` | laser_odometry_core/src/laser_odometry_core.cpp:132-135 | Returns the identity for every input and reads no state. |
| `LaserOdometryCore.LaserOdometryBase.SetLaserPose` | laser_odometry_core/src/laser_odometry_core.cpp:86-100 | Afterwards `GetLaserPose()` returns the given transform and `laser_to_base_` is its inverse, so the invariant is kept. Only these two fields change. |
| `LaserOdometryCore.LaserOdometryBase.SetOrigin` | laser_odometry_core/src/laser_odometry_core.cpp:56-69 | Afterwards `GetOrigin()` returns the given transform. Only `world_origin_` changes. |
| `LaserOdometryCore.LaserOdometryBase.SetInitialGuess` | laser_odometry_core/src/laser_odometry_core.cpp:71-84 | Afterwards `GetInitialGuess()` returns the given transform. Only `guess_relative_tf_` changes. |
| `LaserOdometryCore.LaserOdometryBase.SetFrameBase` | laser_odometry_core/src/laser_odometry_core.cpp:185-188 | Afterwards `GetFrameBase()` (lines 169-172) returns the given name. Only `base_frame_` changes. |
| `LaserOdometryCore.LaserOdometryBase.SetFrameLaser` | laser_odometry_core/src/laser_odometry_core.cpp:189-192 | Afterwards `GetFrameLaser()` (lines 173-176) returns the given name. Only `laser_frame_` changes. |
| `LaserOdometryCore.LaserOdometryBase.SetFrameWorld` | laser_odometry_core/src/laser_odometry_core.cpp:193-196 | Afterwards `GetFrameWorld()` (lines 177-180) returns the given name. Only `world_frame_` changes. |
| `LaserOdometryCore.LaserOdometryBase.SetFrameOdom` | laser_odometry_core/src/laser_odometry_core.cpp:197-200 | Afterwards `GetFrameOdom()` (lines 181-184) returns the given name. Only `laser_odom_frame_` changes. |
| `LaserOdometryCore.MisconfiguredCovarianceScenario` | laser_odometry_core/src/laser_odometry_core.cpp:39-48 | A client run: a fresh estimator configured with a three-entry covariance diagonal, then `process(scan, odom)`. The odometry covariance is `1e-9` on all six diagonal entries and 0 elsewhere. |

The readers `Configured()` (lines 127-130), `GetEstimatedPose()` (10-13),
`GetCurrentTime()` (201-204), `GetOrigin`, `GetInitialGuess`, `GetLaserPose`
and the four `GetFrame*` functions return one field each. Their `reads`
frames name only that field. The setter and `Configure` rows above state what
they return.

## Left out

- Parameter server: `private_nh_.param` lookups are the explicit `Params` record. A missing `covariance_diag` and an explicitly empty one are the same input, because the source passes an empty vector as the lookup's default.
- Logging: the `ROS_WARN_STREAM` warning at lines 43-44 is left out as a diagnostic only. It reports the size of the member vector, not of the vector just retrieved.
- Transform algebra: transforms are an opaque type and `inverse()` is uninterpreted. Rounding in tf's double-precision inverse is not modelled. The model needs only that the identity is its own inverse.
- Trigonometry: `createQuaternionMsgFromYaw`, `getYaw`, `getRotation` and `quaternionTFToMsg` are uninterpreted function values of `TfLibrary`. Doubles are modelled as mathematical reals, and `static_cast<double>` is the identity.
- Derived hooks: `configureImpl()` and the inner `process(scan, pose_2d)` are inputs. Any change a derived class makes to the base fields inside those hooks is not modelled. This covers advancing `world_origin_to_base_`, setting `current_time_` and writing `relative_tf_`. The composition `world_to_base ∘ relative` lives in derived classes and is not part of this model.
- Process: the unused third parameter `relative_odom_ptr` is omitted.
- Process: requires a six-entry `default_covariance_`, because the source indexes entries 0 to 5 without a check. That holds after any `configure()`. Calling before configure is undefined in the source.
- Getters: the non-const reference-returning getters (`getOrigin`, `getInitialGuess`, `getLaserPose`) are modelled as returning copies. Writing through the returned reference is not captured. In the source, such a write can break the `laser_to_base_` invariant.
- Null pointers: the `assert` checks and `boost::make_shared` are not modelled, because Dafny references are never null.
- Class declaration: the class header laser_odometry_core.h is not part of this model. The constructor's initial values are choices of this model: identity transforms, empty names, an empty covariance, not configured, time zero.
- Messages: of the laser scan the base class reads only `header.stamp`. The scan's header frame, sequence number, angle and range limits and `ranges` are kept so that the scan is a recognisable `sensor_msgs/LaserScan`; its time increments and intensities are omitted. The odometry message carries the fields the base class writes, plus the header sequence number, the child frame and the twist, to show that they are untouched. `fillPose2DMsg` overwrites all three fields of the caller's `Pose2D`, so it is modelled as a function returning the value.
- Orientation: no variant in this file keeps z. Both `process` and `fillOdomMsg` set z to 0. They differ in orientation: `process` writes the quaternion of the inner planar yaw, while `fillOdomMsg` writes the full rotation of the estimated pose.
