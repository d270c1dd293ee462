# sailtrack-core boat estimator, modelled in Dafny

This project models the position and velocity estimator of SailTrack, a
sailing-boat telemetry system. The estimator takes GNSS fixes and IMU samples
off an MQTT broker and runs a linear Kalman filter. The filter state has
6 entries: position north/east/up relative to a reference fix, and the
velocities. The estimator publishes a "boat" record with latitude, longitude,
altitude, speed and course over ground, heading, pitch, roll and drift.

The model covers these parts of the repository:

- **The two C++ filter classes** (`FixedKalmanFilter` and
  `DynamicKalmanFilter`). They are classes over the `Kalman` formulas.
  - predict(), predict(u) and predict(u, z);
  - correct(z), where the gain comes from solving (H·P·Hᵀ + R)ᵀ·Kᵀ = H·Pᵀ;
  - the noise-covariance update and the accessors.

  `Kalman` also states the filter recursion as a state machine over calls.
  `FilterEquivalence` proves that the two classes produce the same estimate.
- **The boat model** (`Model`): F, G, H, Q and the default R.
- **The C++ estimator process** (`SensorPrep`, `Mailbox`, `FilterNode`,
  `Publish`):
  - the sensor preprocessing;
  - the mailboxes the callbacks share with the filter loop;
  - the reference-fix capture;
  - one iteration of the filter loop, as the calls it makes on the filter;
  - the translation of the estimate back to a published record.
- **The offline preprocessing of logged CSV data** (`LoggedData`). It turns
  each logged row into an acceleration line, a noise line and a measurement
  line, written as NaN where the row's fields are missing.
- **The Python prototype filter** (`SmfLibrary`). It is proved to agree with
  the C++ filters.
- **The two Rust prototypes built on an external error-state filter**
  (`RustKalman`, `RustAggregator`). They cover:
  - the measurement construction and the reference-fix rules;
  - the message handlers and the three-way filter tick;
  - angle wrapping, drift and translation.

  The external filter is opaque. The model records the calls made on it, in
  order.

Matrices are sequences of rows of reals. The linear solves (Eigen LDLT,
numpy `inv`) have an abstract contract: the solution satisfies the system,
and a unique solution exists wherever the matrix is invertible. `cos`, `sin`,
`atan2` and `sqrt` are parameters of type `Trig`.

Behaviour kept as written, each documented by a lemma:

- The C++ estimator stores the GPS reference raw, in receiver units. It then
  subtracts it from a fix scaled to degrees and metres
  (`FilterNode.RawReferenceOffset`).
- `gps2meas` scales the longitude offset by the latitude factor. The
  translation divides the latitude by it instead. With a factor other
  than 1, the round trip misses both coordinates
  (`Publish.LatLonRoundTripMisses`).
- The C++ drift compares a course in radians with a heading in degrees
  (`Publish.DriftComparesRadians`).
- The Rust drift flips to the other way round whenever the magnitudes of
  the two wrapped angles add up to more than 180. It does not test the gap
  between them, so a heading of 100 and a course of 90 give −350
  (`RustKalman.MovingDriftWrapAsWritten`).
- The Rust `angle_wrap_180` does not bring angles below −180 back into range
  (`RustKalman.AngleWrap180BelowRange`).
- The Rust estimator feeds the vertical velocity to the height observation
  (`RustKalman.TickCallsOrder`).
- The aggregator never writes the stored fix type, so its fix check never
  fires from the all-zero start (`RustAggregator.FixTypeNeverWritten`).
- The aggregator's "update only" branch is unreachable
  (`RustAggregator.AggregatorAlwaysPredicts`).
- Python's `predict` tests the builtin `input` rather than the control
  input, so it always adds G·u (`SmfLibrary.KalmanFilter.Predict`).

## Model

| member | source | states |
|---|---|---|
| LinAlg.Solve | sailtrack/kalman-c/fixed-kalman-filter.h:127 | The LDLT solve as a contract: for an invertible A, A·X = B holds of the returned X |
| LinAlg.SolveVec | sailtrack/kalman-c/fixed-kalman-filter.h:116 | The vector solve R.ldlt().solve(z) as a contract: for an invertible R, R·w = z holds of the returned w, and it is the only such w (SolveVecUnique) |
| Kalman.PredictState | sailtrack/kalman-c/fixed-kalman-filter.h:101 | F·x̂ keeps the state's length; its values are fixed by PredictZeroInput and PredictIdentityState |
| Kalman.PredictStateInput | sailtrack/kalman-c/fixed-kalman-filter.h:108 | F·x̂ + G·u keeps the state's length |
| Kalman.PredictCov | sailtrack/kalman-c/fixed-kalman-filter.h:102 | F·P·Fᵀ + Q is n×n |
| Kalman.InnovationCov | sailtrack/kalman-c/fixed-kalman-filter.h:127 | H·P·Hᵀ + R is p×p |
| Kalman.Gain | sailtrack/kalman-c/fixed-kalman-filter.h:123-127 | K is n×p and solves (H·P·Hᵀ + R)ᵀ·Kᵀ = H·Pᵀ |
| Kalman.CorrectState | sailtrack/kalman-c/fixed-kalman-filter.h:130 | x̂ + K·(z − H·x̂) keeps the state's length |
| Kalman.CorrectCov | sailtrack/kalman-c/fixed-kalman-filter.h:131 | P − K·H·P is n×n |
| Kalman.PredictZeroInput | sailtrack/kalman-c/fixed-kalman-filter.h:101-108 | predict(0) gives exactly the state predict() gives |
| Kalman.PredictIdentityState | sailtrack/kalman-c/fixed-kalman-filter.h:101 | With F = I a prediction leaves x̂ unchanged |
| Kalman.PredictIdentityCov | sailtrack/kalman-c/fixed-kalman-filter.h:102 | With F = I the new covariance is P + Q |
| Kalman.PredictIdentityNoNoise | sailtrack/kalman-c/fixed-kalman-filter.h:102 | With F = I and Q = 0 the covariance is unchanged |
| Kalman.PredictIdentityTrace | sailtrack/kalman-c/fixed-kalman-filter.h:102 | With F = I the trace of P rises by exactly trace(Q) |
| Kalman.PredictCovSymmetric | sailtrack/kalman-c/fixed-kalman-filter.h:109 | For any F, symmetric P and Q give a symmetric F·P·Fᵀ + Q |
| Kalman.InnovationCovSymmetric | sailtrack/kalman-c/fixed-kalman-filter.h:127 | Symmetric P and R give a symmetric innovation covariance |
| Kalman.CorrectCovSymmetric | sailtrack/kalman-c/fixed-kalman-filter.h:131 | With the filter's gain, symmetric P and R give a symmetric corrected P |
| Kalman.CorrectZeroInnovation | sailtrack/kalman-c/fixed-kalman-filter.h:130 | A measurement equal to H·x̂ leaves x̂ unchanged, whatever K |
| Kalman.GainClosedForm | sailtrack/kalman-c/fixed-kalman-filter.h:123-124 | The solved gain is the original formulation P·Hᵀ·(H·P·Hᵀ + R)⁻¹ |
| Kalman.GainRightInverseExact | sailtrack/kalman-c/fixed-kalman-filter.h:127 | With R = 0 the gain is a right inverse of H |
| Kalman.CorrectExactMeasurement | sailtrack/kalman-c/fixed-kalman-filter.h:130 | With R = 0 the corrected state reproduces z through H, and is H⁻¹·z when H is invertible |
| Kalman.ScalarPredict | sailtrack/kalman-c/fixed-kalman-filter.h:99-103 | A worked 1-D case: x̂ = 0, P = 1, Q = 0.01 predict to 0 and 1.01 |
| Kalman.ScalarInnovation | sailtrack/kalman-c/fixed-kalman-filter.h:127 | The same case with R = 0.25 has innovation covariance 1.26 |
| Kalman.ScalarGain | sailtrack/kalman-c/fixed-kalman-filter.h:127 | Its gain is 1.01/1.26 |
| Kalman.ScalarCorrect | sailtrack/kalman-c/fixed-kalman-filter.h:130-131 | Its corrected state is (1.01/1.26)·z and its covariance (1 − 1.01/1.26)·1.01 |
| Kalman.Step | sailtrack/kalman-c/fixed-kalman-filter.h:98-132 | One call on a filter: only update_noise_covariance changes R, and every predict sets P to F·P·Fᵀ + Q |
| Kalman.RunKeepsSymmetric | sailtrack/kalman-c/fixed-kalman-filter.h:131 | Through any well-shaped call sequence, symmetric Q, P, R and installed R keep P symmetric |
| FixedFilter.FixedKalmanFilter.Snapshot | sailtrack/kalman-c/fixed-kalman-filter.h:64-67 | The mutable members are an N-vector and N×N and P×P matrices |
| FixedFilter.FixedKalmanFilter.constructor | sailtrack/kalman-c/fixed-kalman-filter.h:71-82 | x̂ = 0, P = I, R = 0 and S = 0, with the model matrices kept |
| FixedFilter.FixedKalmanFilter.WithInit | sailtrack/kalman-c/fixed-kalman-filter.h:84-96 | x̂ and P as given, R = 0 and S = 0 |
| FixedFilter.FixedKalmanFilter.Predict | sailtrack/kalman-c/fixed-kalman-filter.h:98-103 | x̂ := F·x̂ and P := F·P·Fᵀ + Q; it is the Predict step of the call machine |
| FixedFilter.FixedKalmanFilter.PredictWithInput | sailtrack/kalman-c/fixed-kalman-filter.h:105-110 | x̂ := F·x̂ + G·u and P := F·P·Fᵀ + Q |
| FixedFilter.FixedKalmanFilter.PredictWithInputAndMeasurement | sailtrack/kalman-c/fixed-kalman-filter.h:112-118 | The S·solve(R, z) term is zero because S stays zero, so this is predict(u) |
| FixedFilter.FixedKalmanFilter.Correct | sailtrack/kalman-c/fixed-kalman-filter.h:120-132 | K solves the transposed system; x̂ := x̂ + K·(z − H·x̂) and P := P − K·H·P |
| FixedFilter.FixedKalmanFilter.Apply | sailtrack/kalman-c/fixed-kalman-filter.h:43-56 | Any public call has the effect the call machine gives it |
| FixedFilter.FixedKalmanFilter.StateEstimate | sailtrack/kalman-c/fixed-kalman-filter.h:52 | Returns x̂, an N-vector |
| FixedFilter.FixedKalmanFilter.StateCovarianceEstimate | sailtrack/kalman-c/fixed-kalman-filter.h:53 | Returns P, N×N |
| FixedFilter.FixedKalmanFilter.UpdateNoiseCovariance | sailtrack/kalman-c/fixed-kalman-filter.h:56 | Replaces R and nothing else; F, G, H, Q are constant fields |
| DynamicFilter.DynamicKalmanFilter.Snapshot | sailtrack/kalman-c/dynamic-kalman-filter.h:46-49 | The mutable members as a value |
| DynamicFilter.DynamicKalmanFilter.constructor | sailtrack/kalman-c/dynamic-kalman-filter.h:52-63 | x̂ = 0 of length F.rows, P = I of F's shape, R = 0 of H's shape, S = 0 of shape F.rows×H.cols |
| DynamicFilter.DynamicKalmanFilter.WithInit | sailtrack/kalman-c/dynamic-kalman-filter.h:65-76 | x̂ and P as given, R = 0 of H's shape, S = 0 of F's shape |
| DynamicFilter.DynamicKalmanFilter.Predict | sailtrack/kalman-c/dynamic-kalman-filter.h:78-82 | x̂ := F·x̂ and P := F·P·Fᵀ + Q |
| DynamicFilter.DynamicKalmanFilter.PredictWithInput | sailtrack/kalman-c/dynamic-kalman-filter.h:84-88 | x̂ := F·x̂ + G·u and P := F·P·Fᵀ + Q |
| DynamicFilter.DynamicKalmanFilter.PredictWithInputAndMeasurement | sailtrack/kalman-c/dynamic-kalman-filter.h:90-95 | The S term vanishes (S is zero), so this is predict(u) |
| DynamicFilter.DynamicKalmanFilter.Correct | sailtrack/kalman-c/dynamic-kalman-filter.h:97-108 | The same gain and update as the fixed-size filter |
| DynamicFilter.DynamicKalmanFilter.Apply | sailtrack/kalman-c/dynamic-kalman-filter.h:25-38 | On a square model, any public call has the call machine's effect |
| DynamicFilter.DynamicKalmanFilter.StateEstimate | sailtrack/kalman-c/dynamic-kalman-filter.h:34 | Returns x̂ |
| DynamicFilter.DynamicKalmanFilter.StateCovarianceEstimate | sailtrack/kalman-c/dynamic-kalman-filter.h:35 | Returns P |
| DynamicFilter.DynamicKalmanFilter.UpdateNoiseCovariance | sailtrack/kalman-c/dynamic-kalman-filter.h:38 | Replaces R, of any shape, and nothing else |
| DynamicFilter.DefaultsSquare | sailtrack/kalman-c/dynamic-kalman-filter.h:58-61 | Identity(F.rows, F.cols) is I for square F; the default R is square exactly when H is square |
| FilterEquivalence.DefaultEstimate | sailtrack/kalman-c/fixed-kalman-filter.h:77-80 | The 4-argument constructors' state: zero x̂, unit-diagonal P, zero R |
| FilterEquivalence.RunBoth | sailtrack/kalman-c/dynamic-kalman-filter.h:78-108 | A fixed and a dynamic filter in the same state, given the same calls, end in the same state: the call machine's run from that state |
| FilterEquivalence.SameCallsSameEstimate | sailtrack/kalman-c/dynamic-kalman-filter.h:65-76 | Both filters built by the initialising constructors from the same x̂₀ and P₀, given the same calls, end with the same x̂ and P: those of the call machine from (x̂₀, P₀, R = 0) |
| FilterEquivalence.SameCallsSameEstimateFromDefaults | sailtrack/kalman-c/dynamic-kalman-filter.h:52-63 | The same from the 4-argument constructors, starting in DefaultEstimate |
| Model.Shapes | sailtrack/kalman-c/model.h:15-50 | F and Q are 6×6, G is 6×3, H and the default R are 6×6 |
| Model.TransitionAdvancesPosition | sailtrack/kalman-c/model.h:15-23 | F moves each position by sample_time times its velocity and keeps the velocities |
| Model.InputIntegratesAcceleration | sailtrack/kalman-c/model.h:26-34 | G turns an acceleration into (T²/2)·a of displacement and T·a of velocity |
| Model.ObservationIsIdentity | sailtrack/kalman-c/model.h:36 | H observes the whole state |
| Model.GEntries | sailtrack/kalman-c/model.h:26-34 | G's entries, row by row |
| Model.NoiseCovarianceValue | sailtrack/kalman-c/model.h:38 | Q = G·Gᵀ·w², entry by entry |
| Model.NoiseCovarianceSymmetric | sailtrack/kalman-c/model.h:38 | Q is symmetric with a non-negative diagonal |
| Model.DefaultNoiseDiagonal | sailtrack/kalman-c/model.h:42-50 | The default R is diagonal: 1 on the positions, 0.1 on the velocities |
| Records.GpsOfMessage | sailtrack/kalman-c/main.cpp:159-173 | The callback's record holds the nine message fields and zero everywhere else |
| SensorPrep.AngleWrap180 | sailtrack/kalman-c/main.cpp:60-66 | An angle above 180 loses one turn and every other angle is kept; (−180, 540] maps into (−180, 180] |
| SensorPrep.Imu2Accel | sailtrack/kalman-c/main.cpp:69-72 | The input vector has three entries |
| SensorPrep.Gps2Meas | sailtrack/kalman-c/main.cpp:74-86 | The measurement has six entries |
| SensorPrep.MeasOfReference | sailtrack/kalman-c/main.cpp:74-86 | A fix against itself measures zero position and velocity (velN, velE, −velD) |
| SensorPrep.MeasLinearInLatitude | sailtrack/kalman-c/main.cpp:78 | Shifting the latitude by d moves the north entry by d·C/360 and no other entry |
| SensorPrep.Gps2R | sailtrack/kalman-c/main.cpp:88-94 | R is 6×6 |
| SensorPrep.Gps2RIsDiagonal | sailtrack/kalman-c/main.cpp:88-94 | R is diagonal and symmetric with 0.25·hAcc² twice, 0.25·vAcc², 0.25·sAcc² three times, all non-negative |
| SensorPrep.Gps2LatFactor | sailtrack/kalman-c/main.cpp:96-99 | Latitudes that sum to zero give cos 0; the values themselves are tied to the offline factor by LoggedData.MeasureMatchesLive |
| SensorPrep.LatFactorSymmetric | sailtrack/kalman-c/main.cpp:98 | The factor is the same whichever of the two fixes is the reference |
| SensorPrep.Orientation2W2B | sailtrack/kalman-c/main.cpp:101-108 | A 3×3 rotation about the vertical axis: last row (0, 0, 1), equal diagonal, antisymmetric off-diagonal |
| SensorPrep.W2BIsRotation | sailtrack/kalman-c/main.cpp:101-108 | Where cos² + sin² = 1, W·Wᵀ = I |
| SensorPrep.ScaleGps | sailtrack/kalman-c/main.cpp:111-124 | Latitude and longitude ×1e-7, height, velocities and accuracies ×1e-3, every other field kept |
| SensorPrep.GpsPreprocess | sailtrack/kalman-c/main.cpp:111-124 | The in-place scaling yields ScaleGps of the fix |
| SensorPrep.OrientationOfImu | sailtrack/kalman-c/main.cpp:128-130 | heading = 360 − euler_z, pitch = −euler_y, roll = euler_x |
| SensorPrep.RotateImu | sailtrack/kalman-c/main.cpp:132-139 | Only the x and y accelerations change, to the rotation of the acceleration by the heading |
| SensorPrep.ImuPreprocess | sailtrack/kalman-c/main.cpp:126-140 | Writes the derived orientation and the rotated IMU record |
| SensorPrep.RotateImuYawOnly | sailtrack/kalman-c/main.cpp:133-139 | z passes through, x and y turn by the heading, and the horizontal magnitude is kept when cos² + sin² = 1 |
| Mailbox.WriteBox | sailtrack/kalman-c/main.cpp:182-187 | A write stores the sample and marks it new |
| Mailbox.DrainBox | sailtrack/kalman-c/main.cpp:248-253 | A drain returns the stored sample and its flag, and leaves the sample in place, not new |
| Mailbox.SharedSample.Contents | sailtrack/kalman-c/main.cpp:41-43 | The shared sample and its flag as a value |
| Mailbox.SharedSample.constructor | sailtrack/kalman-c/main.cpp:41-42 | A value-initialised global: the initial sample, not new |
| Mailbox.SharedSample.Write | sailtrack/kalman-c/main.cpp:204-208 | The locked write is WriteBox |
| Mailbox.SharedSample.Drain | sailtrack/kalman-c/main.cpp:255-260 | The locked read-and-clear is DrainBox |
| Mailbox.ReplayState | sailtrack/kalman-c/main.cpp:182-187 | Last write wins, and the flag is set exactly when the last event was a write |
| Mailbox.DrainReturnsLastWrite | sailtrack/kalman-c/main.cpp:248-253 | A drain returns the last sample written before it, flagged new exactly when no drain came in between |
| Mailbox.TwoWritesThenDrains | sailtrack/kalman-c/main.cpp:248-253 | Two writes then two drains: the second sample, new, then the same sample, stale |
| Mailbox.ReadsAreWritten | sailtrack/kalman-c/main.cpp:248-260 | Every sample a drain returns is the initial one or one that was written |
| Mailbox.WakeTimer.constructor | sailtrack/kalman-c/main.cpp:242 | The deadline starts at the current time |
| Mailbox.WakeTimer.Advance | sailtrack/kalman-c/main.cpp:245 | Each iteration moves the deadline by exactly one period |
| FilterNode.CaptureRef | sailtrack/kalman-c/main.cpp:175-179 | The reference is set from the first message and never replaced |
| FilterNode.ReferenceIsFirstMessage | sailtrack/kalman-c/main.cpp:175-179 | After any message sequence the reference is the first message's raw record |
| FilterNode.FixCalls | sailtrack/kalman-c/main.cpp:283-286 | A new fix installs R, then corrects, with no predict |
| FilterNode.LoopCallsOrder | sailtrack/kalman-c/main.cpp:268-287 | One predict, first, with the IMU acceleration or zero; then noise update and correct exactly when the fix is new |
| FilterNode.TickCallsOfBoxes | sailtrack/kalman-c/main.cpp:248-287 | The drained boxes decide the calls: a rotated acceleration or zero, and the scaled fix's R and measurement |
| FilterNode.StaleImuTickIsPlainPredict | sailtrack/kalman-c/main.cpp:276 | With a stale IMU sample, the loop's predict(0) acts as predict() |
| FilterNode.RawReferenceOffset | sailtrack/kalman-c/main.cpp:264 | The raw reference subtracted from a scaled fix leaves a north offset of (lat·1e-7 − lat)·C/360, and a height offset that is non-zero whenever the height is |
| FilterNode.Estimator.constructor | sailtrack/kalman-c/main.cpp:229-239 | Globals zero, filter from the boat model with x̂₀ = 0 and P₀ = Q, lat factor 1 |
| FilterNode.Estimator.Reference | sailtrack/kalman-c/main.cpp:36-37 | The reference exists exactly when the set flag is |
| FilterNode.Estimator.OnGps | sailtrack/kalman-c/main.cpp:157-188 | Captures the reference and writes the record to the GPS mailbox |
| FilterNode.Estimator.OnImu | sailtrack/kalman-c/main.cpp:191-209 | Writes the IMU record to its mailbox |
| FilterNode.Estimator.FilterTick | sailtrack/kalman-c/main.cpp:243-298 | One loop iteration: runs the tick's calls on the filter, drains both mailboxes and hands the estimate, lat factor and orientation over |
| FilterNode.Estimator.ReadAndPreprocess | sailtrack/kalman-c/main.cpp:248-266 | Drains both mailboxes, scales the fix, rotates the IMU sample and derives the lat factor and orientation |
| FilterNode.Estimator.FilterAndHandOver | sailtrack/kalman-c/main.cpp:268-296 | Runs the loop's calls and copies estimate, lat factor and orientation to the shared copies |
| FilterNode.Estimator.RunFilter | sailtrack/kalman-c/main.cpp:268-287 | The filter ends as the call machine says for the loop's calls |
| FilterNode.Estimator.PredictStep | sailtrack/kalman-c/main.cpp:270-277 | The time update is one predict call |
| FilterNode.Estimator.UpdateAndCorrect | sailtrack/kalman-c/main.cpp:280-287 | The GPS branch installs R and corrects |
| FilterNode.Estimator.PublishTick | sailtrack/kalman-c/main.cpp:327-392 | Nothing while the reference is unset; otherwise the translated record |
| FilterNode.Estimator.PublishIteration | sailtrack/kalman-c/main.cpp:323-336 | Advances the deadline by 200 ms and publishes as PublishTick |
| Publish.Drift | sailtrack/kalman-c/main.cpp:356-365 | Zero at or below 0.5 m/s; otherwise the wrapped gap, negative exactly when the heading is the larger |
| Publish.Translate | sailtrack/kalman-c/main.cpp:345-392 | Position back to degrees and metres, sog and cog from the velocity, pitch and roll wrapped; no latitude where the factor is 0 |
| Publish.AltitudeRoundTrip | sailtrack/kalman-c/main.cpp:354 | A measured height translated back gives the fix's height |
| Publish.LatLonRoundTrip | sailtrack/kalman-c/main.cpp:352-353 | The latitude offset comes back divided by the factor, the longitude offset multiplied by it |
| Publish.LatLonRoundTripUnitFactor | sailtrack/kalman-c/main.cpp:352-353 | With factor 1 the round trip is exact |
| Publish.LatLonRoundTripMisses | sailtrack/kalman-c/main.cpp:352-353 | With any other factor both coordinates miss, off the reference |
| Publish.DriftComparesRadians | sailtrack/kalman-c/main.cpp:351-362 | The course is atan2 in radians, which the wrap never moves; the drift's magnitude is the gap between the wrapped heading in degrees and that course |
| LoggedData.GpsOfRow | sailtrack/kalman-c/preprocessing-logged.cpp:97-110 | A parsed row's fix keeps the three wheel fields of the previous record |
| LoggedData.ReadImu | sailtrack/kalman-c/preprocessing-logged.cpp:71-91 | Available exactly when all six IMU columns parse; then the record and orientation from the row, else the orientation kept |
| LoggedData.ReadGps | sailtrack/kalman-c/preprocessing-logged.cpp:94-118 | Available exactly when all fourteen GPS columns parse; then the scaled fix from the row |
| LoggedData.AccelWrf | sailtrack/kalman-c/preprocessing-logged.cpp:124-130 | Three entries, the vertical acceleration unchanged |
| LoggedData.LocalR | sailtrack/kalman-c/preprocessing-logged.cpp:158-159 | Six non-negative variances |
| LoggedData.Measure | sailtrack/kalman-c/preprocessing-logged.cpp:150-166 | Six entries |
| LoggedData.FirstFix | sailtrack/kalman-c/preprocessing-logged.cpp:142-146 | The reference row, if any, lies before n and parses |
| LoggedData.FirstFixIsFirst | sailtrack/kalman-c/preprocessing-logged.cpp:142-146 | No earlier row parses; there is no reference exactly when no row parses |
| LoggedData.FirstFixStays | sailtrack/kalman-c/preprocessing-logged.cpp:142-146 | Once set, the reference row never changes |
| LoggedData.AccLine | sailtrack/kalman-c/preprocessing-logged.cpp:175-181 | An acceleration line has three cells |
| LoggedData.RLine | sailtrack/kalman-c/preprocessing-logged.cpp:183-193 | A noise line has six cells |
| LoggedData.MeasureLine | sailtrack/kalman-c/preprocessing-logged.cpp:183-193 | A measurement line has six cells |
| LoggedData.PlaceholderExactlyWhenUnparsed | sailtrack/kalman-c/preprocessing-logged.cpp:175-194 | Each line is the NaN placeholder exactly when its row fails to parse |
| LoggedData.AccLineMatchesLive | sailtrack/kalman-c/preprocessing-logged.cpp:124-135 | The offline acceleration equals the live estimator's rotated IMU input |
| LoggedData.RLineMatchesLive | sailtrack/kalman-c/preprocessing-logged.cpp:158-164 | The noise line is the diagonal of the live estimator's R |
| LoggedData.MeasureMatchesLive | sailtrack/kalman-c/preprocessing-logged.cpp:148-166 | The offline lat factor and measurement equal the live ones |
| LoggedData.ReferenceRowMeasure | sailtrack/kalman-c/preprocessing-logged.cpp:142-154 | The reference row measures zero position and its own NED-up velocity |
| LoggedData.LaterRowsShareReference | sailtrack/kalman-c/preprocessing-logged.cpp:142-166 | Every later parsed row is measured against the first parsed row |
| LoggedData.PushAccel | sailtrack/kalman-c/preprocessing-logged.cpp:124-135 | Appends the three rotated accelerations |
| LoggedData.PushFix | sailtrack/kalman-c/preprocessing-logged.cpp:148-171 | Sets the lat factor and appends the six variances and the six measurements |
| LoggedData.PreprocessRow | sailtrack/kalman-c/preprocessing-logged.cpp:70-172 | One row: the flags match the parses, the pushed values are the row's lines, and the reference is the first parsed row |
| LoggedData.PreprocessLoggedData | sailtrack/kalman-c/preprocessing-logged.cpp:68-195 | Writes, for every data row in order, its acceleration, noise and measurement line |
| SmfLibrary.PrototypeGain | sailtrack/sailtrackSMFLibrary.py:23-24 | K = P·Hᵀ·inv(Σ) satisfies K·Σ = P·Hᵀ |
| SmfLibrary.PrototypeGainIsGain | sailtrack/sailtrackSMFLibrary.py:24 | The prototype's gain is the C++ filters' solved gain |
| SmfLibrary.Coupling | sailtrack/sailtrackSMFLibrary.py:33 | S·inv(R)·z has S's row count |
| SmfLibrary.CouplingOfZero | sailtrack/sailtrackSMFLibrary.py:33 | With S = 0 the coupling is zero |
| SmfLibrary.KalmanFilter.constructor | sailtrack/sailtrackSMFLibrary.py:6-19 | Stores everything; P defaults to the identity of the state's size |
| SmfLibrary.KalmanFilter.Filter | sailtrack/sailtrackSMFLibrary.py:21-26 | The correction with the prototype gain, equal to the C++ one; zero innovation keeps x |
| SmfLibrary.KalmanFilter.Predict | sailtrack/sailtrackSMFLibrary.py:28-34 | Always adds G·u and adds the coupling when S is present; an absent operand fails the call after x changed and before P did |
| SmfLibrary.PrototypeMatchesFilters | sailtrack/sailtrackSMFLibrary.py:21-34 | Without S, predict and filter give the C++ filters' predict(u) and correct(z) |
| SmfLibrary.PrototypeZeroCouplingMatchesFilters | sailtrack/sailtrackSMFLibrary.py:33 | With an all-zero S, predict(u, z) is the C++ predict(u, z) |
| RustKalman.MeasureFromGps | src/bin/sailtrack-kalman.rs:123-149 | The variances are 3×3 and 2×2 |
| RustKalman.MeasureOfReference | src/bin/sailtrack-kalman.rs:126-132 | A message against itself: zero position, vertical velocity −vel_d·1e-3, new |
| RustKalman.MeasureVariances | src/bin/sailtrack-kalman.rs:133-137 | Diagonal position variance (h, h, v), velocity variance s·I₂ and the same s vertically, all non-negative |
| RustKalman.NextRef | src/bin/sailtrack-kalman.rs:185-188 | A message replaces the reference exactly while it is not a 3D fix |
| RustKalman.FirstFix3D | src/bin/sailtrack-kalman.rs:185 | The first message with fix type 3, if any |
| RustKalman.RefRule | src/bin/sailtrack-kalman.rs:185-188 | Frozen once a 3D fix; until then it ends as the first 3D fix received, or the last message if none |
| RustKalman.ReferenceMessageAtOrigin | src/bin/sailtrack-kalman.rs:185-189 | The message that sets the reference is measured at the origin |
| RustKalman.TickCallsOrder | src/bin/sailtrack-kalman.rs:345-366 | Update exactly when the measure is new, predict unless only the measure is new, predict first; the height observed is the vertical velocity |
| RustKalman.KalmanNode.constructor | src/bin/sailtrack-kalman.rs:232-263 | Zero records, flags false, no filter calls |
| RustKalman.KalmanNode.OnMessageImu | src/bin/sailtrack-kalman.rs:165-177 | Sets new_input and stores the acceleration and rotation (x, −y, 360 − z) |
| RustKalman.KalmanNode.OnMessageGps | src/bin/sailtrack-kalman.rs:179-195 | Applies the reference rule, then stores the message's measurement against the new reference |
| RustKalman.KalmanNode.FilterPredict | src/bin/sailtrack-kalman.rs:198-201 | One predict with the stored input and 200 ms; clears new_input |
| RustKalman.KalmanNode.FilterUpdate | src/bin/sailtrack-kalman.rs:204-212 | Both observations of the stored measure; clears new_measure |
| RustKalman.KalmanNode.FilterTick | src/bin/sailtrack-kalman.rs:345-366 | Makes the tick's calls and leaves both flags false |
| RustKalman.Trunc | src/bin/sailtrack-kalman.rs:216 | Truncation toward zero lies within 1 of its argument, on the side of zero |
| RustKalman.Rem360 | src/bin/sailtrack-kalman.rs:220 | The float remainder by 360 has the dividend's sign, magnitude below 360, and differs from it by whole turns |
| RustKalman.AngleUnwrapRange | src/bin/sailtrack-kalman.rs:219-226 | For any real, the result is in [0, 360) and differs by whole turns |
| RustKalman.AngleWrap180Range | src/bin/sailtrack-kalman.rs:215-217 | [−180, 360) wraps into [−180, 180), and [−180, 180) is kept |
| RustKalman.AngleWrap180BelowRange | src/bin/sailtrack-kalman.rs:216 | −270 wraps to −270 |
| RustKalman.PublishBoat | src/bin/sailtrack-kalman.rs:396-416 | sog ≤ 1: drift 0 and cog = heading; else cog is the unwrapped atan2 course in degrees and drift the moving drift |
| RustKalman.MovingDriftSign | src/bin/sailtrack-kalman.rs:399-411 | Moving: cog in [0, 360); drift < 0 when the wrapped heading is larger, else ≥ 0, for headings in [−180, 360) |
| RustKalman.MovingDriftWrapAsWritten | src/bin/sailtrack-kalman.rs:405-407 | Heading 100 and course 90 give drift −350 |
| RustKalman.PositionRoundTrip | src/bin/sailtrack-kalman.rs:413-416 | A measured position translates back to the message's latitude, longitude and altitude (position.z + h_msl·1e-3) |
| RustAggregator.ScaleInto | src/bin/sailtrack-aggregator.rs:171-179 | lat/lon ×1e-7 replaced; fix type, epoch, ground speed, heading and heading accuracy kept |
| RustAggregator.FixTypeNeverWritten | src/bin/sailtrack-aggregator.rs:168-181 | No message sequence changes the stored fix type, so from zero it is never 3 |
| RustAggregator.ObservationOf | src/bin/sailtrack-aggregator.rs:115-136 | The variances are 3×3 and 2×2 |
| RustAggregator.ObservationOfReference | src/bin/sailtrack-aggregator.rs:115-124 | Record equal to the reference: zero position, vertical velocity −vel_d |
| RustAggregator.ObservationVariances | src/bin/sailtrack-aggregator.rs:125-136 | All three position variances use h_acc; velocity s·I₂ and the same s vertically |
| RustAggregator.ObservationMatchesEstimator | src/bin/sailtrack-aggregator.rs:115-136 | Equal to the estimator's measurement except the vertical position variance, which uses h_acc |
| RustAggregator.AggregatorAlwaysPredicts | src/bin/sailtrack-aggregator.rs:293-322 | Always predicts first, observes exactly when the measure is new; the estimator skips that predict |
| RustAggregator.AggregatorBoat | src/bin/sailtrack-aggregator.rs:344-376 | Zero position, altitude, ascension and drift; heading, pitch and roll from the filter |
| RustAggregator.AggregatorBoatAgainstEstimator | src/bin/sailtrack-aggregator.rs:344-349 | Same angles as the estimator's record; speed in m/s where the estimator's is in knots; the course equals the estimator's once unwrapped, whenever the estimator sees the boat moving |
| RustAggregator.Aggregator.constructor | src/bin/sailtrack-aggregator.rs:187-214 | Zero records, flags false, no filter calls |
| RustAggregator.Aggregator.OnMessageGps | src/bin/sailtrack-aggregator.rs:168-181 | Scales the message into the record, sets new_measure, leaves the reference |
| RustAggregator.Aggregator.FixCheck | src/bin/sailtrack-aggregator.rs:268-272 | Copies the record to the reference exactly when its fix type is 3 |
| RustAggregator.Aggregator.FilterTick | src/bin/sailtrack-aggregator.rs:293-322 | Makes the tick's calls, clears new_input always and new_measure when set |

## Left out

- MQTT and JSON are left out: the mosquitto, rumqttc and paho clients, their callbacks, and serde/nlohmann parsing and dumping. They are network I/O and foreign libraries. Each handler takes the decoded record.
- Threads, mutexes, sleeping, the lock-retry loops and the Rust fix-polling loops are left out. Each mailbox operation is modelled as one atomic method, and each thread loop as one iteration. The unsynchronised reference flag in the C++ estimator is left out.
- The Rust nodes' `wait_for_fix_tipe` gate is left out. It is called before each tick and each publish in `src/bin/sailtrack-kalman.rs` (lines 338 and 384) and in `src/bin/sailtrack-aggregator.rs` (lines 285 and 337). The Rust ticks and publishes are modelled as if the gate had passed. The C++ estimator's gate, `gps_ref_set`, is modelled by FilterNode.Estimator.PublishTick.
- The aggregator's `get_matrix_from_measure` takes the measure lock again while the tick holds it. Only its arithmetic is modelled.
- The aggregator's IMU handler is the estimator's, line for line. It is modelled once, as RustKalman.KalmanNode.OnMessageImu.
- The external ESKF crate is opaque: its predict, observe, quaternion and Euler-angle code. The model records the calls made on it. Heading, pitch and roll come in as parameters.
- The aggregator's publish loop, its thread, and the MQTT publish are left out. The record it publishes is modelled by RustAggregator.AggregatorBoat. The position it reads and rotates by the heading is never published, so it is not modelled.
- Floating point is not modelled. Every value is an exact real: no f32/f64 rounding, NaN propagation, overflow, or numeric drift of P away from positive semi-definite.
- `cos`, `sin`, `atan2` and `sqrt` are uninterpreted. Each lemma states the law it assumes of them. `powf(x, 2)` is x·x. Powers of ten are the constants 1e-7 and 1e-3.
- LinAlg.Solve: the model's solve is exact for any invertible matrix. Eigen's LDLT reads only the lower triangle and is exact only for a symmetric positive- or negative-semidefinite matrix. The model therefore promises more than LDLT for a non-symmetric or indefinite matrix, such as [[0, 1], [1, 0]].
- LinAlg.SolveVec: the same gap as LinAlg.Solve. The model's predict(u, z) does not rely on it: it takes any w of the right length, since S is zero. Only Kalman.CorrectExactMeasurement uses it, to name H⁻¹·z.
- FixedFilter.FixedKalmanFilter.Correct: requires the innovation covariance to be invertible. Eigen's LDLT returns some value on a singular matrix, and the model does not say which value.
- FixedFilter.FixedKalmanFilter.Correct: the gain is exact only where H·P·Hᵀ + R is symmetric semidefinite. For a non-symmetric P (possible through the initialising constructor) or an indefinite innovation covariance, LDLT solves a different system. Kalman.RunKeepsSymmetric shows the filter keeps symmetry from a symmetric start. Semidefiniteness is not modelled.
- DynamicFilter.DynamicKalmanFilter.Correct: the same invertibility requirement as the fixed-size filter.
- DynamicFilter.DynamicKalmanFilter.Correct: the same LDLT gap as the fixed-size filter: exact only for a symmetric semidefinite innovation covariance.
- FixedFilter.FixedKalmanFilter.PredictWithInputAndMeasurement: the LDLT solution w is an arbitrary vector of the right length, since R may be singular. The result does not depend on w, because S is zero.
- FilterEquivalence.SameCallsSameEstimate: covers only models with as many outputs as states (p = n). The dynamic filter's default R is |H|×cols(H), so for p ≠ n it is not the p×p matrix correct() needs.
- FilterEquivalence.SameCallsSameEstimateFromDefaults: covers only p = n, for the same reason.
- DynamicFilter.DynamicKalmanFilter.Apply: requires a model with as many outputs as states. The default R takes the shape of H, so otherwise a correct() after construction would not type.
- SmfLibrary.PrototypeGain: requires an invertible innovation covariance. numpy's `inv` raises an error on a singular one, and that exception is not modelled.
- SmfLibrary.KalmanFilter.Predict: requires the operand shapes numpy needs. Broadcasting, and the exception a None operand raises, are modelled only as a failed call.
- SmfLibrary.KalmanFilter.Filter: requires H and R present and well shaped. The exception on None is not modelled.
- The Python D matrix is stored and never used, as in the source.
- `kalman_sample_time_s` is not defined in the headers shown. The filter loop's period is a parameter of the estimator's constructor.
- The estimator's initial x̂ and P are not defined in the headers shown. The model takes x̂₀ = 0 and P₀ = Q, as `sailtrack/kalman-c/test-script.cpp:38-41` sets them.
- LoggedData.PreprocessLoggedData: requires at least 22 fields per data row. `getline` drops trailing empty fields, and a shorter row is indexed out of bounds.
- LoggedData.PreprocessLoggedData: does not model `stod` throwing out_of_range.
- LoggedData.PreprocessLoggedData: does not return the file-scope globals' values after the run. The file scope before the call comes in as a parameter.
- LoggedData.ReadImu: does not state the fields a failed row has already overwritten. A failed read is only reported as unavailable, with the orientation kept.
- LoggedData.ReadGps: likewise, for the GPS fields a failed row has already overwritten.
- `vector2csv` and the file reading and removal are left out. Each output file is a list of lines of cells.
- The commented-out wind post-processing and the Rust debug counters are not modelled.
- The hardware status scripts, the CSV tooling, the MQTT simulator and the packaging file are not part of this model.
