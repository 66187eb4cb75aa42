/**
 * The development camera that needs no hardware: a connection and
 * acquisition state machine with a frame counter and settings. Frame pixels
 * and timing are not modelled; a frame is described by its sequence number
 * and the centre of the white circle that moves across it.
 */
module Mock {
  import opened Wrappers

  /** Why an operation raised instead of returning. */
  datatype CameraError =
    | NotConnected      // start_acquisition before connect
    | InvalidShape      // numpy refuses a negative size; a zero width makes `% width` divide by zero

  datatype Outcome = Pass | Fail(error: CameraError)

  datatype Result<T> = Ok(value: T) | Err(error: CameraError)

  /** What a produced frame is made of, as far as this model goes. */
  datatype MovingCircle = MovingCircle(frameNumber: nat, cx: int, cy: int)

  /**
   * Centre of the circle in frame number `n`: it advances 5 pixels per frame,
   * wrapping at the right edge, and sits on the middle row. Python's `%` and
   * `//` agree with Dafny's here because the divisors are positive.
   */
  function CircleCentre(n: nat, width: int, height: int): (c: (int, int))
    requires width > 0 && height >= 0
    ensures 0 <= c.0 < width
    ensures 0 <= c.1 && 2 * c.1 <= height < 2 * c.1 + 2
  {
    ((n * 5) % width, height / 2)
  }

  /** From one frame to the next the circle moves 5 pixels right, modulo the width. */
  lemma CircleAdvancesFivePixels(n: nat, width: int, height: int)
    requires width > 0 && height >= 0
    ensures CircleCentre(n + 1, width, height).0 == (CircleCentre(n, width, height).0 + 5) % width
    ensures CircleCentre(n + 1, width, height).1 == CircleCentre(n, width, height).1
  {
    var a := n * 5;
    assert (n + 1) * 5 == a + 5;
    assert a + 5 == (a % width + 5) + (a / width) * width;
    AddMultiple(a % width + 5, a / width, width);
  }

  /** After `width` frames the circle is back where it was. */
  lemma CirclePeriodic(n: nat, width: int, height: int)
    requires width > 0 && height >= 0
    ensures CircleCentre(n + width, width, height) == CircleCentre(n, width, height)
  {
    assert (n + width) * 5 == n * 5 + 5 * width;
    AddMultiple(n * 5, 5, width);
  }

  lemma MulAtLeast(e: int, m: int)
    requires e >= 1 && m > 0
    ensures e * m >= m
  {
  }

  /** Euclidean remainders are unique. */
  lemma ModUnique(x: int, m: int, d: int, r: int)
    requires m > 0 && 0 <= r < m && x == d * m + r
    ensures x % m == r
  {
    var d', r' := x / m, x % m;
    assert x == d' * m + r';
    assert (d - d') * m == r' - r;
    if d - d' >= 1 {
      MulAtLeast(d - d', m);
    } else if d' - d >= 1 {
      MulAtLeast(d' - d, m);
    }
  }

  /** Adding a multiple of `m` does not change the remainder. */
  lemma AddMultiple(a: int, q: int, m: int)
    requires m > 0
    ensures (a + q * m) % m == a % m
  {
    ModUnique(a + q * m, m, a / m + q, a % m);
  }

  /** `MockCamera` in src/camera/mock.py: its methods update every field below in place. */
  class MockCamera {
    const width: int
    const height: int
    var connected: bool
    var acquiring: bool
    var exposureUs: int
    var gainDb: real
    var fps: int
    var frameCount: nat

    /** Acquisition needs a connection, and the frame rate is at least 1. */
    ghost predicate Valid()
      reads this
    {
      (acquiring ==> connected) && fps >= 1
    }

    /** Disconnected and idle, 10000 µs exposure, 0 dB gain, 30 fps, no frames yet. */
    constructor (width: int, height: int)
      ensures Valid()
      ensures this.width == width && this.height == height
      ensures !connected && !acquiring
      ensures exposureUs == 10000 && gainDb == 0.0 && fps == 30 && frameCount == 0
    {
      this.width := width;
      this.height := height;
      connected := false;
      acquiring := false;
      exposureUs := 10000;
      gainDb := 0.0;
      fps := 30;
      frameCount := 0;
    }

    /** The default frame size of the Python `__init__`, 1280 × 720, with the same initial state. */
    constructor Default()
      ensures Valid()
      ensures width == 1280 && height == 720
      ensures !connected && !acquiring
      ensures exposureUs == 10000 && gainDb == 0.0 && fps == 30 && frameCount == 0
    {
      width := 1280;
      height := 720;
      connected := false;
      acquiring := false;
      exposureUs := 10000;
      gainDb := 0.0;
      fps := 30;
      frameCount := 0;
    }

    /** `is_connected`: a camera that is not connected is not acquiring either. */
    function IsConnected(): (b: bool)
      reads this
      ensures b == connected
      ensures Valid() && !b ==> !acquiring
    {
      connected
    }

    /** `is_acquiring`: a camera that is acquiring is connected. */
    function IsAcquiring(): (b: bool)
      reads this
      ensures b == acquiring
      ensures Valid() && b ==> connected
    {
      acquiring
    }

    /** The pause between frames, `1.0 / fps`: always defined and positive. */
    function TargetInterval(): (t: real)
      reads this
      requires Valid()
      ensures t > 0.0 && t * fps as real == 1.0
    {
      1.0 / fps as real
    }

    method Connect()
      requires Valid()
      modifies this
      ensures Valid()
      ensures connected && acquiring == old(acquiring)
      ensures exposureUs == old(exposureUs) && gainDb == old(gainDb)
      ensures fps == old(fps) && frameCount == old(frameCount)
    {
      connected := true;
    }

    /** Stops acquisition first, so afterwards the camera is neither connected nor acquiring. */
    method Disconnect()
      requires Valid()
      modifies this
      ensures Valid()
      ensures !connected && !acquiring
      ensures exposureUs == old(exposureUs) && gainDb == old(gainDb)
      ensures fps == old(fps) && frameCount == old(frameCount)
    {
      StopAcquisition();
      connected := false;
    }

    /** Fails, changing nothing, unless connected; otherwise acquires from frame 0. */
    method StartAcquisition() returns (r: Outcome)
      requires Valid()
      modifies this
      ensures Valid()
      ensures r == (if old(connected) then Pass else Fail(NotConnected))
      ensures r.Pass? ==> acquiring && frameCount == 0
      ensures r.Fail? ==> acquiring == old(acquiring) && frameCount == old(frameCount)
      ensures connected == old(connected)
      ensures exposureUs == old(exposureUs) && gainDb == old(gainDb) && fps == old(fps)
    {
      if !connected {
        return Fail(NotConnected);
      }
      acquiring := true;
      frameCount := 0;
      r := Pass;
    }

    method StopAcquisition()
      requires Valid()
      modifies this
      ensures Valid()
      ensures !acquiring && connected == old(connected)
      ensures exposureUs == old(exposureUs) && gainDb == old(gainDb)
      ensures fps == old(fps) && frameCount == old(frameCount)
    {
      acquiring := false;
    }

    /**
     * `get_frame`. Idle: nothing, and no state changes. Acquiring: the frame
     * counter goes up by one, then a frame whose circle centre follows from
     * the new count, or an error when the dimensions cannot make a frame
     * (the counter has already moved by then).
     */
    method GetFrame() returns (r: Result<Option<MovingCircle>>)
      requires Valid()
      modifies this
      ensures Valid()
      ensures !old(acquiring) ==> r == Ok(None) && frameCount == old(frameCount)
      ensures old(acquiring) ==> frameCount == old(frameCount) + 1
      ensures old(acquiring) && (width <= 0 || height < 0) ==> r == Err(InvalidShape)
      ensures old(acquiring) && width > 0 && height >= 0 ==>
        var c := CircleCentre(frameCount, width, height);
        r == Ok(Some(MovingCircle(frameCount, c.0, c.1)))
      ensures connected == old(connected) && acquiring == old(acquiring)
      ensures exposureUs == old(exposureUs) && gainDb == old(gainDb) && fps == old(fps)
    {
      if !acquiring {
        return Ok(None);
      }
      frameCount := frameCount + 1;
      if width <= 0 || height < 0 {
        return Err(InvalidShape);
      }
      var c := CircleCentre(frameCount, width, height);
      r := Ok(Some(MovingCircle(frameCount, c.0, c.1)));
    }

    method SetExposure(exposureUs: int)
      requires Valid()
      modifies this
      ensures Valid()
      ensures this.exposureUs == exposureUs
      ensures connected == old(connected) && acquiring == old(acquiring)
      ensures gainDb == old(gainDb) && fps == old(fps) && frameCount == old(frameCount)
    {
      this.exposureUs := exposureUs;
    }

    method SetGain(gainDb: real)
      requires Valid()
      modifies this
      ensures Valid()
      ensures this.gainDb == gainDb
      ensures connected == old(connected) && acquiring == old(acquiring)
      ensures exposureUs == old(exposureUs) && fps == old(fps) && frameCount == old(frameCount)
    {
      this.gainDb := gainDb;
    }

    /** Stores the requested rate, raised to 1 if it is lower. */
    method SetFps(fps: int)
      requires Valid()
      modifies this
      ensures Valid()
      ensures this.fps == (if fps < 1 then 1 else fps)
      ensures connected == old(connected) && acquiring == old(acquiring)
      ensures exposureUs == old(exposureUs) && gainDb == old(gainDb) && frameCount == old(frameCount)
    {
      this.fps := if fps < 1 then 1 else fps;
    }
  }

  /** `test_mock_camera_connect` in tests/test_camera.py: a new camera is disconnected, then connected, then not. */
  method ConnectSession() returns (before: bool, during: bool, after: bool)
    ensures !before && during && !after
  {
    var camera := new MockCamera.Default();
    before := camera.IsConnected();
    camera.Connect();
    during := camera.IsConnected();
    camera.Disconnect();
    after := camera.IsConnected();
  }

  /** `test_mock_camera_settings` in tests/test_camera.py: each setter stores its value, and 60 fps needs no clamping. */
  method SettingsSession() returns (exposureUs: int, gainDb: real, fps: int)
    ensures exposureUs == 20000 && gainDb == 5.0 && fps == 60
  {
    var camera := new MockCamera.Default();
    camera.Connect();
    camera.SetExposure(20000);
    camera.SetGain(5.0);
    camera.SetFps(60);
    exposureUs, gainDb, fps := camera.exposureUs, camera.gainDb, camera.fps;
    camera.Disconnect();
  }

  /** `test_mock_camera_acquisition` in tests/test_camera.py: connect, start, one frame, stop, disconnect. */
  method AcquisitionSession() returns (frame: Result<Option<MovingCircle>>)
    ensures frame == Ok(Some(MovingCircle(1, 5, 240)))
  {
    var camera := new MockCamera(640, 480);
    camera.Connect();
    assert !camera.IsAcquiring();
    var started := camera.StartAcquisition();
    assert started == Pass && camera.IsAcquiring();
    frame := camera.GetFrame();
    camera.StopAcquisition();
    assert !camera.IsAcquiring();
    camera.Disconnect();
    assert !camera.IsConnected();
  }
}
