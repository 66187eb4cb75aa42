# Beam profiler core in Dafny

This project models the core of a camera beam profiler in Dafny. It has two parts.

The projection and statistics engine (`src/core/projection.py`) does four things:
- it collapses a grayscale frame along one axis into a 1-D profile (SUM, MIN, MAX or AVERAGE);
- it can rescale the profile so that its maximum is 1;
- it finds the Full Width at Half Maximum (FWHM) by scanning outward from the first peak and interpolating the two crossings of the half-maximum level;
- it summarises the profile.

The `ProjectionAnalyzer` runs these steps for the X and Y axes of a camera frame.

The mock camera (`src/camera/mock.py`) is the hardware-free camera used during development. It is a small connection and acquisition state machine with a frame counter, exposure, gain and frame-rate settings, and a circle that moves 5 pixels per frame.

Files:
- `wrappers.dfy`: `Option`, which stands for Python's `None`-or-value.
- `seqmath.dfy`: the numpy reductions the engine uses (`sum`, `min`, `max`, first-occurrence `argmax`) and element-wise division, with their lemmas.
- `projection.dfy`: projections, normalisation, FWHM (a functional specification and the looping method proved equal to it), statistics, grayscale conversion and the analyzer class.
- `mock.dfy`: the `MockCamera` class, whose methods keep "acquiring implies connected, fps ≥ 1"; the circle-centre arithmetic; and three client methods that replay the camera tests.

Samples are exact reals; IEEE double rounding is not modelled.

Switching normalisation on does not always change the statistics: `normalize_projection` returns a profile whose maximum is already 1, or is not positive, unchanged (src/core/projection.py:103-106).

## Model

| member | source | states |
|---|---|---|
| SeqMath.Sum | src/core/projection.py:82 | numpy `sum`: zero for no samples, the sample itself for one; its bounds are `SumBounds` |
| SeqMath.Divide | src/core/projection.py:105 | `data / max_val`: same length, each sample divided by the positive scale |
| SeqMath.MinOf | src/core/projection.py:84 | numpy `min`: a sample of the profile that is ≤ every sample |
| SeqMath.MaxOf | src/core/projection.py:86 | numpy `max`: a sample of the profile that is ≥ every sample |
| SeqMath.ArgMax | src/core/projection.py:133 | numpy `argmax`: an index holding the maximum, with every earlier sample strictly smaller (first occurrence on ties) |
| SeqMath.ArgMaxUnique | src/core/projection.py:133 | any index that holds the maximum and has only strictly smaller samples before it is the argmax |
| SeqMath.SumBounds | src/core/projection.py:178 | samples between lo and hi give a total between n·lo and n·hi |
| SeqMath.DivideMaxAndArgMax | src/core/projection.py:103-105 | dividing by a positive scale divides max and min by it and keeps the first argmax |
| SeqMath.DivideByMaxIsOne | src/core/projection.py:103-105 | dividing by a positive maximum makes the new maximum exactly 1 |
| Projection.Reduce | src/core/projection.py:81-88 | one collapsed value: SUM the line's total, MIN/MAX its smallest/largest sample, AVERAGE the value that times the line's length is its total |
| Projection.CalculateProjection | src/core/projection.py:61-89 | axis 0 gives one value per column, axis 1 one per row; SUM is the exact total of the collapsed line; MIN/MAX are values that occur in the line and bound it; AVERAGE times the line length is the total |
| Projection.ProjectionAxesAgree | src/core/projection.py:61-89 | projecting along axis 1 equals projecting the transposed grid along axis 0, for every mode |
| Projection.SumProjectionAddsRows | src/core/projection.py:81-82 | the axis-0 SUM projection equals the vector sum of the rows: result[j] is the sum over i of image[i][j] |
| Projection.AverageIsSumOverCount | src/core/projection.py:87-88 | AVERAGE is SUM divided, element by element, by the collapsed dimension |
| Projection.NormalizeProjection | src/core/projection.py:92-106 | same length; if the maximum is positive, each sample is divided by it and the new maximum is exactly 1; otherwise the profile is returned unchanged |
| Projection.NormalizeIdempotent | src/core/projection.py:92-106 | normalising a normalised profile changes nothing |
| Projection.Fwhm | src/core/projection.py:109-166 | fewer than 3 samples give (None, None, None); the three results are all present or all absent; fwhm = right − left |
| Projection.HalfMax | src/core/projection.py:133-138 | the reference level (first peak + minimum) / 2, which lies between the minimum and the peak value |
| Projection.LeftScan | src/core/projection.py:141-149 | the leftward scan from the peak returns the rising step nearest the peak that brackets the half maximum, or None exactly when no such step exists |
| Projection.RightScan | src/core/projection.py:152-160 | the rightward scan returns the falling step nearest the peak that brackets the half maximum, or None exactly when no such step exists |
| Projection.CalculateFwhm | src/core/projection.py:109-166 | the two index loops with early `break` return exactly the functional specification `Fwhm` of the profile |
| Projection.LeftCrossingAt | src/core/projection.py:145-148 | the interpolated left crossing on a rising step i lies in [i−1, i], and is exactly i when the two samples are equal |
| Projection.RightCrossingAt | src/core/projection.py:156-159 | the interpolated right crossing on a falling step i lies in [i, i+1], and is exactly i when the two samples are equal |
| Projection.CrossingsAround | src/core/projection.py:162-166 | the triple is present exactly when both scans find a step, all three parts present or all absent, and fwhm = right − left |
| Projection.FwhmCrossings | src/core/projection.py:141-164 | when present: 0 ≤ left ≤ peak ≤ right ≤ n−1, fwhm ≥ 0, and each crossing is interpolated on the bracketing step nearest the peak |
| Projection.FwhmPresentIff | src/core/projection.py:129-166 | for n ≥ 3, an FWHM exists exactly when some sample before the first peak and some sample after it lie at or below the half maximum |
| Projection.EdgePeakHasNoFwhm | src/core/projection.py:142-153 | a first peak at index 0 or at index n−1 gives (None, None, None) |
| Projection.FlatProfileHasNoFwhm | tests/test_projection.py:117-122 | a constant profile peaks at index 0 and has no FWHM |
| Projection.DecreasingProfileHasNoFwhm | tests/test_projection.py:130-135 | a strictly decreasing profile peaks at index 0 and has no FWHM |
| Projection.TriangleFwhm | src/core/projection.py:133-164 | the profile [0, 2, 4, 2, 0] has half maximum 2, crossings 1 and 3, and FWHM 2 |
| Projection.DescendingExampleHasNoFwhm | tests/test_projection.py:130-135 | the profile [100, 80, 60, 40, 20] has no FWHM |
| Projection.HalfMaxScaled | src/core/projection.py:133-138 | dividing by a positive scale keeps the first argmax and divides the half-maximum level by the scale |
| Projection.FwhmScaleInvariant | src/core/projection.py:138-160 | dividing every sample by the same positive number leaves the FWHM triple unchanged |
| Projection.NormalizeKeepsPeakAndFwhm | src/core/projection.py:92-106 | normalisation moves neither the first peak nor the FWHM crossings |
| Projection.Mean | src/core/projection.py:178 | numpy `mean` lies between the minimum and the maximum |
| Projection.Variance | src/core/projection.py:179 | the population variance (divide by N, the square of numpy's default `std`) is never negative |
| Projection.NormalizeScalesMean | src/core/projection.py:103-105 | normalising a profile with a positive maximum divides its mean by that maximum |
| Projection.FlatProfileHasZeroVariance | src/core/projection.py:178-179 | a constant profile has mean equal to its sample and variance 0 |
| Projection.CalculateStats | src/core/projection.py:169-195 | min ≤ mean ≤ max; variance ≥ 0; min and max occur in the profile and bound it; peak position is the first argmax; the FWHM fields equal `calculate_fwhm` |
| Projection.RampStats | tests/test_projection.py:141-150 | [1, 2, 3, 4, 5] gives mean 3, variance 2, min 1, max 5, peak at 4 and no FWHM |
| Projection.ToGrayscale | src/core/projection.py:229-234 | same height and width as the frame; each value is channel 0 of its pixel (the sample itself for a 2-D frame), in [0, 256) |
| Projection.GrayscaleIgnoresOtherChannels | src/core/projection.py:231-233 | frames that agree on channel 0 give the same grayscale image |
| Projection.ProjectionAnalyzer.constructor | src/core/projection.py:215-227 | the analyzer stores the given mode and normalise flag |
| Projection.ProjectionAnalyzer.Default | src/core/projection.py:215-227 | the defaults are AVERAGE and no normalisation |
| Projection.ProjectionAnalyzer.AnalyzeX | src/core/projection.py:236-256 | the profile is channel 0 collapsed over rows (one value per column), normalised if the flag is set, and the stats are those of that profile; peak and FWHM equal the raw projection's; when normalised, mean ≤ max ≤ 1, and max = 1 when the raw maximum is positive |
| Projection.ProjectionAnalyzer.AnalyzeY | src/core/projection.py:258-278 | as AnalyzeX, with columns collapsed (one value per row) |
| Mock.CircleCentre | src/camera/mock.py:79-80 | cx = (frame_count·5) mod width lies in [0, width); cy = height // 2 |
| Mock.CircleAdvancesFivePixels | src/camera/mock.py:79-80 | from one frame to the next the circle moves 5 pixels right, modulo the width, on the same row |
| Mock.CirclePeriodic | src/camera/mock.py:79 | after `width` frames the circle is back where it started |
| Mock.MockCamera.constructor | src/camera/mock.py:19-28 | a new camera is disconnected and idle, with exposure 10000 µs, gain 0 dB, 30 fps and frame count 0 |
| Mock.MockCamera.Default | src/camera/mock.py:19-28 | the same initial state at the default 1280 × 720 size |
| Mock.MockCamera.IsConnected | src/camera/mock.py:105-107 | `is_connected` reports the flag; under the invariant a disconnected camera is not acquiring |
| Mock.MockCamera.IsAcquiring | src/camera/mock.py:109-111 | `is_acquiring` reports the flag; under the invariant an acquiring camera is connected |
| Mock.MockCamera.TargetInterval | src/camera/mock.py:58 | the target frame interval 1/fps is defined and positive, since fps ≥ 1 |
| Mock.MockCamera.Connect | src/camera/mock.py:30-32 | sets connected and changes nothing else |
| Mock.MockCamera.Disconnect | src/camera/mock.py:34-37 | stops acquisition, then clears connected: afterwards neither flag is set |
| Mock.MockCamera.StartAcquisition | src/camera/mock.py:39-45 | fails with "not connected" and changes nothing unless connected; otherwise acquiring is set and the frame count resets to 0 |
| Mock.MockCamera.StopAcquisition | src/camera/mock.py:47-49 | clears acquiring and changes nothing else |
| Mock.MockCamera.GetFrame | src/camera/mock.py:51-91 | idle: returns None and changes nothing; acquiring: the frame count goes up by exactly one and the frame's circle is at the centre for the new count |
| Mock.MockCamera.SetExposure | src/camera/mock.py:93-95 | stores the exposure and changes nothing else |
| Mock.MockCamera.SetGain | src/camera/mock.py:97-99 | stores the gain and changes nothing else |
| Mock.MockCamera.SetFps | src/camera/mock.py:101-103 | stores max(1, fps), so the rate stays at least 1 |
| Mock.ConnectSession | tests/test_camera.py:8-16 | a new camera reports not connected, then connected, then not connected |
| Mock.AcquisitionSession | tests/test_camera.py:19-36 | connect, start, one frame, stop, disconnect: the frame is number 1 with its circle at (5, 240) on a 640 × 480 camera |
| Mock.SettingsSession | tests/test_camera.py:39-47 | the setters store exposure 20000, gain 5.0 and 60 fps |

The data types follow the Python ones: `Projection.ProjectionMode` is the four-valued enum of src/core/projection.py:20-33, and `Projection.ProjectionStats` is the dataclass of src/core/projection.py:36-58 with the same fields in the same order, except that `variance` stands in place of `std` (see "## Left out"). `Projection.CalculateStats` is the member whose contract states what each field holds.

Every `MockCamera` method requires and ensures `Valid()`: acquisition implies a connection, and fps ≥ 1. A camera starts with both flags false, so the invariant holds from construction on, whatever sequence of operations follows.

## Left out

- Projection.CalculateStats: keeps the population variance rather than the standard deviation, because the square root is not modelled. `ProjectionStats` has a `variance` field in place of `std`.
- Projection.Variance: only non-negativity and the flat-profile case are proved. The converse, that zero variance means a flat profile, is not proved.
- Projection.Mean: states the bounds min ≤ mean ≤ max. It does not restate that the mean is the total over the count.
- Floating point: samples are exact reals, so rounding in numpy's sums, means and interpolation is not modelled.
- Projection.CalculateProjection: requires axis 0 or 1, which is what every caller passes (`analyze_x` and `analyze_y` at src/core/projection.py:250 and :272, and the tests); numpy's negative axes are not modelled.
- Projection.CalculateProjection: requires a non-empty, rectangular grid. On a grid with a zero-length axis numpy's MIN and MAX raise, while SUM returns zeros and AVERAGE returns NaN with a warning; those zero and NaN results are not modelled.
- Projection.CalculateProjection: the mode is always passed explicitly; the Python default `mode=AVERAGE` (src/core/projection.py:64) is not modelled, and no caller relies on it.
- Projection.NormalizeProjection and Projection.CalculateStats: require a non-empty profile, because numpy's `max`, `min` and `argmax` raise on an empty one. `Projection.CalculateFwhm` has no such requirement and returns (None, None, None) for it, as src/core/projection.py:129-130 does.
- Projection.ToGrayscale: requires every pixel of a multi-channel frame to have a channel 0; numpy raises an index error otherwise.
- Frames are 8-bit (`uint8`). Other pixel types are not modelled.
- Mock.MockCamera.GetFrame: the time-based rate limiting (`time.time`, `time.sleep`, `_last_frame_time`) and the pixel synthesis (gradients, clipping, the circle mask, the brightness from gain and exposure) are not modelled. A frame is described only by its number and its circle centre. A frame that cannot be built is reported as an `InvalidShape` error after the counter has moved: a negative width or height, which `np.zeros` refuses (src/camera/mock.py:66), or a zero width, for which Python's `%` raises a division by zero (src/camera/mock.py:79).
- Mock.MockCamera.StartAcquisition: the exception is modelled as a returned `Fail(NotConnected)` outcome.
- The log messages the camera prints are not modelled.
- The camera test's expectation of a 3-channel frame is not modelled. The mock builds a 2-D frame.
- The abstract camera protocol (`src/camera/protocol.py`) is not modelled separately; `MockCamera` carries its operations.
- The Gaussian-based FWHM and statistics tests depend on `exp` and float tolerances, so they are not modelled.
- The user interface, the acquisition thread, the vendor camera driver, camera discovery, configuration from the environment, and the scripts are not part of this model.
- The string values of `ProjectionMode` (`"sum"`, `"min"`, `"max"`, `"avg"`) are only used by the user interface and are not modelled.
