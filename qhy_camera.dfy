/** The QHY camera driver (`qhy_alpaca_camera`): the binning and sub-frame
    setters with their range checks, the range-checked gain and offset, the
    exposure states, the cooler switch and the reshaping of the frame the
    SDK returns into the two-dimensional image the hub serves. Every call
    into the QHY SDK is replaced by its result, passed in as a parameter. */
module QhyCamera {
  import opened Wrappers
  import opened Devices
  import opened Bytes

  /** `QHYCCD_SUCCESS`, the SDK's result for a call that succeeded. */
  const Success: uint32 := 0

  /** `camera_state_enum`. */
  datatype CameraState = Idle | Waiting | Exposing | Reading | Download | Error

  /** C++ integer division, which truncates toward zero. */
  function TruncDiv(a: int, b: int): (q: int)
    requires b > 0
    ensures a >= 0 ==> 0 <= q * b <= a < (q + 1) * b
    ensures a < 0 ==> (q - 1) * b < a <= q * b <= 0
  {
    if a >= 0 then
      FloorDivBounds(a, b);
      a / b
    else
      var p := (-a) / b;
      FloorDivBounds(-a, b);
      assert -p * b == -(p * b) && (-p - 1) * b == -((p + 1) * b);
      -p
  }

  /** Division of a natural number: the quotient times the divisor is at
      most the dividend, and one more times the divisor exceeds it. */
  lemma FloorDivBounds(a: nat, b: int)
    requires b > 0
    ensures 0 <= a / b && 0 <= a / b * b <= a < (a / b + 1) * b
  {
    var q, m := a / b, a % b;
    assert a == q * b + m && 0 <= m < b;
    assert (q + 1) * b == q * b + b;
    MulNonNegative(q, b);
  }

  /** A start that fits a `uint32_t`, divided by the binning, is stored
      unchanged and names the binned pixel the start falls in. */
  lemma StoredStart(v: int, b: int)
    requires 0 <= v < 0x1_0000_0000 && b >= 1
    ensures Wrap32(TruncDiv(v, b)) as int == TruncDiv(v, b)
    ensures TruncDiv(v, b) * b <= v < (TruncDiv(v, b) + 1) * b
  {
    var q := TruncDiv(v, b);
    MulNonNegative(q, b - 1);
    assert q * b == q + q * (b - 1);
  }

  lemma MulNonNegative(p: nat, b: nat)
    ensures p * b >= 0
  {
  }

  /** An unbinned `uint32_t` coordinate divided by the binning `x`: the
      binned coordinate it falls in. */
  function Binned(a: uint32, x: int): (b: uint32)
    requires x >= 1
    ensures b as int * x <= a as int < (b as int + 1) * x
  {
    FloorDivBounds(a as int, x);
    var q := a as int / x;
    MulNonNegative(q, x - 1);
    assert q * x == q + q * (x - 1);
    q as uint32
  }

  /** Binning never moves the sub-frame past the binned effective area: the
      binned start plus the binned width is at most the binned end. */
  lemma BinnedFrameFits(start: uint32, width: uint32, x: int)
    requires x >= 1
    ensures Binned(start, x) as int + Binned(width, x) as int <= (start as int + width as int) / x
  {
    var s, n := Binned(start, x) as int, Binned(width, x) as int;
    assert (s + n) * x == s * x + n * x;
    QuotientAtLeast(s + n, start as int + width as int, x);
  }

  /** A multiple of the divisor no larger than the dividend is at most the
      quotient times the divisor. */
  lemma QuotientAtLeast(p: int, e: nat, x: int)
    requires x >= 1 && p * x <= e
    ensures p <= e / x
  {
    FloorDivBounds(e, x);
    var q := e / x;
    assert (q + 1 - p) * x == (q + 1) * x - p * x;
    PositiveFactor(q + 1 - p, x);
  }

  lemma PositiveFactor(a: int, x: int)
    requires x >= 1 && a * x > 0
    ensures a > 0
  {
  }

  /** The SDK's answers to `IsQHYCCDControlAvailable` for the binning modes
      CAM_BIN2X2MODE, CAM_BIN4X4MODE, CAM_BIN6X6MODE and CAM_BIN8X8MODE. */
  datatype BinModes = BinModes(bin2: uint32, bin4: uint32, bin6: uint32, bin8: uint32)

  /** Binning `k` is one of the modes the SDK reports as available. */
  predicate Supported(modes: BinModes, k: int)
  {
    (k == 2 && modes.bin2 == Success) || (k == 4 && modes.bin4 == Success)
    || (k == 6 && modes.bin6 == Success) || (k == 8 && modes.bin8 == Success)
  }

  /** The maximum binning the driver determines: since the modes are tried
      from 8 down to 2 and every available one overwrites the last, it is the
      smallest available mode, or 1 when none is. */
  function SmallestBin(modes: BinModes): (b: int)
    ensures b == 1 <==> forall k :: !Supported(modes, k)
    ensures b != 1 ==> Supported(modes, b) && forall k :: Supported(modes, k) ==> b <= k
  {
    if modes.bin2 == Success then assert Supported(modes, 2); 2
    else if modes.bin4 == Success then assert Supported(modes, 4); 4
    else if modes.bin6 == Success then assert Supported(modes, 6); 6
    else if modes.bin8 == Success then assert Supported(modes, 8); 8
    else 1
  }

  /** Pixel (r, c) of a w × h image lies inside a buffer of w·h pixels
      stored column after column. */
  lemma IndexInFrame(r: nat, c: nat, w: nat, h: nat)
    requires r < w && c < h
    ensures r + c * w < w * h
  {
    assert c * w <= (h - 1) * w;
  }

  /** The image `image_2d_*` builds from a buffer: `w` rows of `h` pixels,
      pixel (r, c) being element r + c·w of the buffer. */
  function Reshape<T>(data: seq<T>, w: nat, h: nat): (img: seq<seq<T>>)
    requires w * h <= |data|
    ensures |img| == w
    ensures forall r :: 0 <= r < w ==> |img[r]| == h
  {
    seq(w, r requires 0 <= r < w =>
      seq(h, c requires 0 <= c < h => IndexInFrame(r, c, w, h); data[r + c * w]))
  }

  /** Every element of the first w·h of the buffer is a pixel of the image,
      at row k mod w and column k div w: reshaping loses nothing. */
  lemma ReshapeCovers<T>(data: seq<T>, w: nat, h: nat, k: nat)
    requires w * h <= |data| && k < w * h
    ensures w > 0 && k % w < w && k / w < h
    ensures Reshape(data, w, h)[k % w][k / w] == data[k]
  {
    assert w > 0;
    var r, c := k % w, k / w;
    assert k == r + c * w;
  }

  /** Pixel (r, c) of the image is element r + c·w of the buffer. */
  lemma ReshapeAt<T>(data: seq<T>, w: nat, h: nat, r: nat, c: nat)
    requires w * h <= |data| && r < w && c < h
    ensures r + c * w < |data| && Reshape(data, w, h)[r][c] == data[r + c * w]
  {
    IndexInFrame(r, c, w, h);
  }

  /** The nested loops of `image_2d_8bpp` and `image_2d_16bpp`, building the
      image row by row. */
  method ReshapeRows<T>(data: seq<T>, w: nat, h: nat) returns (img: seq<seq<T>>)
    requires w * h <= |data|
    ensures img == Reshape(data, w, h)
  {
    img := [];
    var r := 0;
    while r < w
      invariant 0 <= r <= w
      invariant |img| == r
      invariant forall i :: 0 <= i < r ==> img[i] == Reshape(data, w, h)[i]
    {
      var row: seq<T> := [];
      var c := 0;
      while c < h
        invariant 0 <= c <= h
        invariant |row| == c
        invariant forall j :: 0 <= j < c ==> row[j] == Reshape(data, w, h)[r][j]
      {
        IndexInFrame(r, c, w, h);
        row := row + [data[r + c * w]];
        c := c + 1;
      }
      img := img + [row];
      r := r + 1;
    }
  }

  /** What `image_2d` returns: the image of 8-bit or of 16-bit pixels (the
      driver widens both to `uint32_t`, which changes no value). */
  datatype Frame = Frame8(rows8: seq<seq<uint8>>) | Frame16(rows16: seq<seq<uint16>>)

  /** `qhy_alpaca_camera`. */
  class Camera {
    var state: CameraState
    var connected: bool
    var binX: int
    var binY: int
    var maxBin: int
    var startX: uint32
    var startY: uint32
    var numX: uint32
    var numY: uint32
    var maxNumX: uint32
    var maxNumY: uint32
    var effectiveStartX: uint32
    var effectiveStartY: uint32
    var effectiveNumX: uint32
    var effectiveNumY: uint32
    var imageW: uint32
    var imageH: uint32
    var bpp: uint32
    var gain: real
    var gainMin: real
    var gainMax: real
    var offset: real
    var offsetMin: real
    var offsetMax: real
    var lastExposureDuration: real
    var canControlCoolerPower: bool
    var runCooler: bool
    var imgData: seq<uint8>

    /** The binning is the same on both axes and at least 1, and so is the
        maximum binning. */
    predicate Valid()
      reads this
    {
      1 <= binX && binY == binX && 1 <= maxBin
    }

    /** The constructor's initialiser list. The fields it leaves out (the
        gain and offset ranges, the offset, the bit depth) are set by the
        SDK during initialisation: here they are arbitrary. */
    constructor ()
      ensures Valid()
      ensures state == Idle && !connected && binX == 1 && maxBin == 1
      ensures startX == 0 && startY == 0 && numX == 0 && numY == 0
      ensures maxNumX == 0 && maxNumY == 0 && imageW == 0 && imageH == 0
      ensures effectiveStartX == 0 && effectiveStartY == 0 && effectiveNumX == 0 && effectiveNumY == 0
      ensures gain == 0.0 && lastExposureDuration == 0.0
      ensures !canControlCoolerPower && !runCooler && imgData == []
    {
      state := Idle;
      connected := false;
      binX, binY, maxBin := 1, 1, 1;
      startX, startY, numX, numY := 0, 0, 0, 0;
      maxNumX, maxNumY, imageW, imageH := 0, 0, 0, 0;
      effectiveStartX, effectiveStartY, effectiveNumX, effectiveNumY := 0, 0, 0, 0;
      gain := 0.0;
      lastExposureDuration := 0.0;
      canControlCoolerPower, runCooler := false, false;
      imgData := [];
      var g0: real, g1: real, o: real, o0: real, o1: real, b: uint32 :| true;
      gainMin, gainMax, offset, offsetMin, offsetMax, bpp := g0, g1, o, o0, o1, b;
    }

    /** The geometry step of initialisation, with overscan excluded, given
        the chip's image size (already in `imageW`, `imageH`) and the
        effective area the SDK reports. A reported width of 0 means no
        effective area: the whole chip is used from (0, 0). Either way the
        sub-frame and the maximum size become the effective area. */
    method UseEffectiveArea(sx: uint32, sy: uint32, nx: uint32, ny: uint32)
      modifies this`numX, this`numY, this`maxNumX, this`maxNumY, this`imageW, this`imageH,
        this`startX, this`startY, this`effectiveStartX, this`effectiveStartY,
        this`effectiveNumX, this`effectiveNumY
      ensures nx != 0 ==> (effectiveStartX == sx && effectiveStartY == sy
        && effectiveNumX == nx && effectiveNumY == ny
        && startX == sx && startY == sy && imageW == nx && imageH == ny)
      ensures nx == 0 ==> (effectiveStartX == 0 && effectiveStartY == 0
        && effectiveNumX == old(imageW) && effectiveNumY == old(imageH)
        && startX == old(startX) && startY == old(startY) && imageW == old(imageW) && imageH == old(imageH))
      ensures numX == effectiveNumX && numY == effectiveNumY
      ensures maxNumX == effectiveNumX && maxNumY == effectiveNumY
    {
      var w, h := imageW, imageH;
      numX, numY, maxNumX, maxNumY := w, h, w, h;
      if nx != 0 {
        effectiveStartX, effectiveStartY, effectiveNumX, effectiveNumY := sx, sy, nx, ny;
        maxNumX, maxNumY, imageW, imageH := nx, ny, nx, ny;
        startX, startY, numX, numY := sx, sy, nx, ny;
      } else {
        effectiveStartX, effectiveStartY, effectiveNumX, effectiveNumY := 0, 0, w, h;
      }
    }

    /** The maximum-binning step of initialisation: starts at 1, then each
        available mode from 8 down to 2 overwrites it. */
    method DetermineMaxBin(modes: BinModes)
      requires Valid()
      modifies this`maxBin
      ensures Valid()
      ensures maxBin == SmallestBin(modes)
    {
      maxBin := 1;
      if modes.bin8 == Success {
        maxBin := 8;
      }
      if modes.bin6 == Success {
        maxBin := 6;
      }
      if modes.bin4 == Success {
        maxBin := 4;
      }
      if modes.bin2 == Success {
        maxBin := 2;
      }
    }

    /** `set_connected`: the flag only. */
    method SetConnected(connect: bool) returns (r: int)
      modifies this`connected
      ensures connected == connect && r == 0
    {
      connected := connect;
      r := 0;
    }

    /** `set_bin_x` (and `set_bin_y`, which calls it), given the result of
        `SetQHYCCDBinMode`. Asking for the current binning succeeds and
        changes nothing; a binning outside 1 … maxBin, or one the SDK
        refuses, returns -1 and changes nothing. Otherwise both axes take
        the binning and the sub-frame becomes the effective area divided by
        it, which never reaches past the binned effective area. */
    method SetBinX(x: int, binModeResult: uint32) returns (r: int)
      requires Valid()
      modifies this`binX, this`binY, this`startX, this`startY, this`numX, this`numY
      ensures Valid()
      ensures r == 0 || r == -1
      ensures r == 0 <==> x == old(binX) || (1 <= x <= maxBin && binModeResult == Success)
      ensures r == -1 || x == old(binX) ==> unchanged(this)
      ensures r == 0 ==> binX == x && binY == x
      ensures r == 0 && x != old(binX) ==> (startX == Binned(effectiveStartX, x) && startY == Binned(effectiveStartY, x)
        && numX == Binned(effectiveNumX, x) && numY == Binned(effectiveNumY, x))
      ensures r == 0 && x != old(binX) ==>
        startX as int + numX as int <= (effectiveStartX as int + effectiveNumX as int) / x
        && startY as int + numY as int <= (effectiveStartY as int + effectiveNumY as int) / x
    {
      if x == binX {
        return 0;
      }
      if x > maxBin || x < 1 {
        return -1;
      }
      if binModeResult == Success {
        binX, binY := x, x;
        startX := Binned(effectiveStartX, x);
        startY := Binned(effectiveStartY, x);
        numX := Binned(effectiveNumX, x);
        numY := Binned(effectiveNumY, x);
        BinnedFrameFits(effectiveStartX, effectiveNumX, x);
        BinnedFrameFits(effectiveStartY, effectiveNumY, x);
        return 0;
      } else {
        return -1;
      }
    }

    /** `set_num_x`, given the result of `SetQHYCCDResolution`: a width
        above the maximum is INVALID_VALUE, a width the SDK refuses is
        DRIVER_ERROR, and otherwise the width is stored (as a `uint32_t`). */
    method SetNumX(n: int, resolutionResult: uint32) returns (r: Result<int>)
      modifies this`numX
      ensures n > maxNumX as int ==> r == Err(InvalidValue)
      ensures n <= maxNumX as int && resolutionResult != Success ==> r == Err(DriverError)
      ensures n <= maxNumX as int && resolutionResult == Success ==> r == Ok(0) && numX == Wrap32(n)
      ensures r.Err? ==> numX == old(numX)
      ensures r.Ok? && n >= 0 ==> numX as int == n && numX <= maxNumX
    {
      if n > maxNumX as int {
        return Err(InvalidValue);
      }
      if resolutionResult != Success {
        return Err(DriverError);
      }
      numX := Wrap32(n);
      return Ok(0);
    }

    /** `set_num_y`, the same over the height. */
    method SetNumY(n: int, resolutionResult: uint32) returns (r: Result<int>)
      modifies this`numY
      ensures n > maxNumY as int ==> r == Err(InvalidValue)
      ensures n <= maxNumY as int && resolutionResult != Success ==> r == Err(DriverError)
      ensures n <= maxNumY as int && resolutionResult == Success ==> r == Ok(0) && numY == Wrap32(n)
      ensures r.Err? ==> numY == old(numY)
      ensures r.Ok? && n >= 0 ==> numY as int == n && numY <= maxNumY
    {
      if n > maxNumY as int {
        return Err(InvalidValue);
      }
      if resolutionResult != Success {
        return Err(DriverError);
      }
      numY := Wrap32(n);
      return Ok(0);
    }

    /** `set_start_x`: a start beyond the effective width is INVALID_VALUE;
        otherwise the start, shifted by the effective area's start, is
        divided by the binning (truncating) and stored as a `uint32_t`. For
        a start that is not negative and does not overflow, the stored start
        is the binned pixel the shifted start falls in. */
    method SetStartX(s: int) returns (r: Result<int>)
      requires Valid()
      modifies this`startX
      ensures s > effectiveNumX as int ==> r == Err(InvalidValue) && startX == old(startX)
      ensures s <= effectiveNumX as int ==>
        r == Ok(0) && startX == Wrap32(TruncDiv(s + effectiveStartX as int, binX))
      ensures r.Ok? && 0 <= s && s + effectiveStartX as int < 0x1_0000_0000 ==>
        startX as int * binX <= s + effectiveStartX as int < (startX as int + 1) * binX
    {
      if s > effectiveNumX as int {
        return Err(InvalidValue);
      }
      var q := TruncDiv(s + effectiveStartX as int, binX);
      if 0 <= s && s + effectiveStartX as int < 0x1_0000_0000 {
        StoredStart(s + effectiveStartX as int, binX);
      }
      startX := Wrap32(q);
      return Ok(0);
    }

    /** `set_start_y`, the same over the height. */
    method SetStartY(s: int) returns (r: Result<int>)
      requires Valid()
      modifies this`startY
      ensures s > effectiveNumY as int ==> r == Err(InvalidValue) && startY == old(startY)
      ensures s <= effectiveNumY as int ==>
        r == Ok(0) && startY == Wrap32(TruncDiv(s + effectiveStartY as int, binY))
      ensures r.Ok? && 0 <= s && s + effectiveStartY as int < 0x1_0000_0000 ==>
        startY as int * binY <= s + effectiveStartY as int < (startY as int + 1) * binY
    {
      if s > effectiveNumY as int {
        return Err(InvalidValue);
      }
      var q := TruncDiv(s + effectiveStartY as int, binY);
      if 0 <= s && s + effectiveStartY as int < 0x1_0000_0000 {
        StoredStart(s + effectiveStartY as int, binY);
      }
      startY := Wrap32(q);
      return Ok(0);
    }

    /** `set_gain`, given the result of setting CONTROL_GAIN: a gain outside
        [gainMin, gainMax] is INVALID_VALUE; inside, the gain changes when
        the SDK accepts it (0) and not otherwise (-1). A stored gain is
        always within range. */
    method SetGain(g: uint32, sdkResult: uint32) returns (r: Result<int>)
      modifies this`gain
      ensures !(gainMin <= g as real <= gainMax) ==> r == Err(InvalidValue) && gain == old(gain)
      ensures gainMin <= g as real <= gainMax ==>
        r == Ok(if sdkResult == Success then 0 else -1)
        && gain == (if sdkResult == Success then g as real else old(gain))
      ensures r == Ok(0) ==> gainMin <= gain <= gainMax
    {
      if g as real >= gainMin && g as real <= gainMax {
        if sdkResult == Success {
          gain := g as real;
          return Ok(0);
        }
      } else {
        return Err(InvalidValue);
      }
      return Ok(-1);
    }

    /** `set_offset`, given the result of setting CONTROL_OFFSET: the same
        pattern over [offsetMin, offsetMax]. */
    method SetOffset(v: int, sdkResult: uint32) returns (r: Result<int>)
      modifies this`offset
      ensures !(offsetMin <= v as real <= offsetMax) ==> r == Err(InvalidValue) && offset == old(offset)
      ensures offsetMin <= v as real <= offsetMax ==>
        r == Ok(if sdkResult == Success then 0 else -1)
        && offset == (if sdkResult == Success then v as real else old(offset))
      ensures r == Ok(0) ==> offsetMin <= offset <= offsetMax
    {
      if v as real < offsetMin || v as real > offsetMax {
        return Err(InvalidValue);
      }
      if sdkResult == Success {
        offset := v as real;
        return Ok(0);
      }
      return Ok(-1);
    }

    /** `image_ready`: the camera is idle after an exposure has been
        started at least once. */
    function ImageReady(): (ready: bool)
      reads this
      ensures ready ==> state == Idle
      ensures ready <==> state == Idle && lastExposureDuration > 0.0
    {
      state == Idle && lastExposureDuration > 0.0
    }

    /** `last_exposure_duration`: INVALID_OPERATION until an exposure has
        been started. */
    function LastExposureDuration(): (r: Result<real>)
      reads this
      ensures r.Err? <==> lastExposureDuration == 0.0
      ensures r.Err? ==> r.error == InvalidOperation
      ensures r.Ok? ==> r.value == lastExposureDuration
    {
      if lastExposureDuration == 0.0 then Err(InvalidOperation) else Ok(lastExposureDuration)
    }

    /** `start_exposure`, given the result of setting CONTROL_EXPOSURE (the
        results of setting the bit mode and the transfer bits are not
        acted on). The camera is EXPOSING, whatever the SDK says, so no
        image is ready; the duration is recorded; the result is 0 when the
        SDK accepted the exposure time (and the exposure thread starts)
        and -1 otherwise. */
    method StartExposure(duration: real, exposureResult: uint32) returns (r: int)
      modifies this`state, this`lastExposureDuration
      ensures state == Exposing && lastExposureDuration == duration
      ensures !ImageReady()
      ensures r == (if exposureResult == Success then 0 else -1)
    {
      state := Exposing;
      lastExposureDuration := duration;
      if exposureResult == Success {
        return 0;
      }
      return -1;
    }

    /** `read_image_from_camera`, given what `GetQHYCCDSingleFrame` writes:
        the frame buffer (of the length `GetQHYCCDMemLength` reported), its
        width and height, and its result. The camera passes through READING
        and ends IDLE, with the image ready when an exposure was started, on
        success, and ERROR otherwise; the buffer and the size are stored
        either way. */
    method ReadImage(frame: seq<uint8>, w: uint32, h: uint32, frameResult: uint32)
      modifies this`state, this`imgData, this`imageW, this`imageH
      ensures imgData == frame && imageW == w && imageH == h
      ensures state == (if frameResult == Success then Idle else Error)
      ensures ImageReady() <==> frameResult == Success && lastExposureDuration > 0.0
    {
      state := Reading;
      imgData := frame;
      imageW, imageH := w, h;
      if frameResult == Success {
        state := Idle;
      } else {
        state := Error;
      }
    }

    /** `abort_exposure`, given the result of
        `CancelQHYCCDExposingAndReadout`: IDLE and 0 on success, ERROR and
        -1 otherwise. After a successful abort the previous image counts as
        ready again whenever an exposure was ever started. */
    method AbortExposure(cancelResult: uint32) returns (r: int)
      modifies this`state
      ensures state == (if cancelResult == Success then Idle else Error)
      ensures r == (if cancelResult == Success then 0 else -1)
      ensures cancelResult == Success ==> (ImageReady() <==> lastExposureDuration > 0.0)
      ensures cancelResult != Success ==> !ImageReady()
    {
      if cancelResult == Success {
        state := Idle;
        return 0;
      }
      state := Error;
      return -1;
    }

    /** `stop_exposure`, given the result of `CancelQHYCCDExposing`: the
        state is left as it is. */
    method StopExposure(cancelResult: uint32) returns (r: int)
      ensures r == 0 <==> cancelResult == Success
      ensures r != 0 ==> r == -1
    {
      if cancelResult == Success {
        return 0;
      }
      return -1;
    }

    /** `cooler_on`: NOT_IMPLEMENTED on a camera whose cooler cannot be
        controlled; otherwise whether the cooler thread is meant to run. */
    function CoolerOn(): (r: Result<bool>)
      reads this
      ensures r.Ok? <==> canControlCoolerPower
      ensures r.Err? ==> r.error == NotImplemented
      ensures r.Ok? ==> r.value == runCooler
    {
      if !canControlCoolerPower then Err(NotImplemented) else Ok(runCooler)
    }

    /** `set_cooler_on`, given the result of setting CONTROL_MANULPWM to 0:
        NOT_IMPLEMENTED, with nothing changed, on a camera whose cooler
        cannot be controlled. Otherwise the cooler is switched as asked and
        `cooler_on` reports it; switching on always returns 0, switching off
        returns 0 only when the SDK accepts the zero power. */
    method SetCoolerOn(on: bool, pwmResult: uint32) returns (r: Result<int>)
      modifies this`runCooler
      ensures !canControlCoolerPower ==> r == Err(NotImplemented) && runCooler == old(runCooler)
      ensures canControlCoolerPower ==> CoolerOn() == Ok(on)
      ensures canControlCoolerPower && on ==> r == Ok(0)
      ensures canControlCoolerPower && !on ==> r == Ok(if pwmResult == Success then 0 else -1)
    {
      if !canControlCoolerPower {
        return Err(NotImplemented);
      }
      if runCooler && on {
        return Ok(0);
      }
      if on {
        runCooler := true;
        return Ok(0);
      } else {
        runCooler := false;
        if pwmResult == Success {
          return Ok(0);
        }
      }
      return Ok(-1);
    }

    /** `image_2d_8bpp`: the buffer as an image of `imageW` rows of
        `imageH` bytes. The buffer must hold the whole image. */
    method Image2d8() returns (img: seq<seq<uint8>>)
      requires imageW as int * imageH as int <= |imgData|
      ensures img == Reshape(imgData, imageW as nat, imageH as nat)
    {
      img := ReshapeRows(imgData, imageW as nat, imageH as nat);
    }

    /** `image_2d_16bpp`: an empty buffer gives an empty image; otherwise
        the buffer is read as little-endian 16-bit pixels and reshaped the
        same way. */
    method Image2d16() returns (img: seq<seq<uint16>>)
      requires |imgData| == 0 || imageW as int * imageH as int <= |imgData| / 2
      ensures |imgData| == 0 ==> img == []
      ensures |imgData| > 0 ==> img == Reshape(Words16(imgData), imageW as nat, imageH as nat)
    {
      if |imgData| == 0 {
        return [];
      }
      img := ReshapeRows(Words16(imgData), imageW as nat, imageH as nat);
    }

    /** `image_2d`: 8-bit pixels when the bit depth is 8, 16-bit otherwise. */
    method Image2d() returns (f: Frame)
      requires bpp == 8 ==> imageW as int * imageH as int <= |imgData|
      requires bpp != 8 ==> |imgData| == 0 || imageW as int * imageH as int <= |imgData| / 2
      ensures f.Frame8? <==> bpp == 8
      ensures f.Frame8? ==> f.rows8 == Reshape(imgData, imageW as nat, imageH as nat)
      ensures f.Frame16? && |imgData| > 0 ==> f.rows16 == Reshape(Words16(imgData), imageW as nat, imageH as nat)
      ensures f.Frame16? && |imgData| == 0 ==> f.rows16 == []
    {
      if bpp == 8 {
        var img := Image2d8();
        return Frame8(img);
      }
      var img := Image2d16();
      return Frame16(img);
    }
  }
}
