/**
  The matrix builders Rotate, Translate, Shear and Zoom. Each is configured
  with a range once; each call of `transform` draws fresh random values from
  that range and builds a 3x3 homogeneous matrix, which it returns when the
  builder is lazy and applies to the image (and target) otherwise.

  Random draws, and the sine and cosine of a drawn angle, are not computed
  here: they arrive in a `Sample`, and `Fits` states what is known of them.
*/
module Builders {
  import opened Outcomes
  import opened Homogeneous
  import opened Resampling

  /** The range a builder's constructor stores. */
  datatype BuilderConfig =
    | RotateConfig(rotationRange: real)                  // degrees, drawn from (-r, r)
    | TranslateConfig(heightRange: real, widthRange: real) // fractions of the height and width
    | ShearConfig(shearRange: real)                      // radians, drawn from (-r, r)
    | ZoomConfig(zoomRange: seq<real>)                   // the list or tuple as given

  /** A Python value given as `translation_range` or `zoom_range`. */
  datatype RangeArg =
    | FloatArg(f: real)
    | IntArg(i: int)
    | ItemsArg(items: seq<real>)   // a list or a tuple

  /** Python truthiness of a range argument: a non-zero number or a non-empty list or tuple. */
  predicate Truthy(arg: RangeArg) {
    match arg
    case FloatArg(f) => f != 0.0
    case IntArg(i) => i != 0
    case ItemsArg(items) => |items| > 0
  }

  /**
    The values one call of `transform` draws: the angle (with its sine and
    cosine) for Rotate and Shear, the two fractions for Translate, the two
    scale factors for Zoom.
  */
  datatype Sample =
    | RotateSample(degree: real, sin: real, cos: real)
    | TranslateSample(u: real, v: real)
    | ShearSample(shear: real, sin: real, cos: real)
    | ZoomSample(zx: real, zy: real)

  /** The sample is of the kind the builder draws. */
  predicate Matches(config: BuilderConfig, sample: Sample) {
    match config
    case RotateConfig(_) => sample.RotateSample?
    case TranslateConfig(_, _) => sample.TranslateSample?
    case ShearConfig(_) => sample.ShearSample?
    case ZoomConfig(_) => sample.ZoomSample?
  }

  /** `random.uniform(a, b)` returns a value between a and b, in either order. */
  predicate InUniform(a: real, b: real, u: real) {
    if a <= b then a <= u <= b else b <= u <= a
  }

  /** What is used of the sine and cosine of an angle: they lie on the unit circle, and are (0, 1) at angle 0. */
  predicate SinCos(angle: real, s: real, c: real) {
    s * s + c * c == 1.0 && (angle == 0.0 ==> s == 0.0 && c == 1.0)
  }

  /**
    The sample is one that `transform` can draw: every uniform draw lies in
    its range, and Translate draws nothing for a non-positive range.
  */
  predicate Fits(config: BuilderConfig, sample: Sample) {
    match config
    case RotateConfig(r) =>
      sample.RotateSample? && InUniform(-r, r, sample.degree) && SinCos(sample.degree, sample.sin, sample.cos)
    case TranslateConfig(h, w) =>
      sample.TranslateSample? &&
      (h > 0.0 ==> InUniform(-h, h, sample.u)) && (w > 0.0 ==> InUniform(-w, w, sample.v))
    case ShearConfig(r) =>
      sample.ShearSample? && InUniform(-r, r, sample.shear) && SinCos(sample.shear, sample.sin, sample.cos)
    case ZoomConfig(z) =>
      sample.ZoomSample? &&
      (|z| >= 2 ==> InUniform(z[0], z[1], sample.zx) && InUniform(z[0], z[1], sample.zy))
  }

  // ---------------------------------------------------------------- the matrices

  /** `[[c, -s, 0], [s, c, 0], [0, 0, 1]]`: a linear map, so it fixes the origin. */
  function RotationMatrix(s: real, c: real): (m: Mat3)
    ensures IsAffine(m) && Offset(m) == Vec2(0.0, 0.0)
  {
    Mat3(c, -s, 0.0,
         s, c, 0.0,
         0.0, 0.0, 1.0)
  }

  /** `[[1, -s, 0], [0, c, 0], [0, 0, 1]]`: a linear map, so it fixes the origin. */
  function ShearMatrix(s: real, c: real): (m: Mat3)
    ensures IsAffine(m) && Offset(m) == Vec2(0.0, 0.0)
  {
    Mat3(1.0, -s, 0.0,
         0.0, c, 0.0,
         0.0, 0.0, 1.0)
  }

  /** `diag(zx, zy, 1)`: a linear map, so it fixes the origin. */
  function ZoomMatrix(zx: real, zy: real): (m: Mat3)
    ensures IsAffine(m) && Offset(m) == Vec2(0.0, 0.0)
  {
    Mat3(zx, 0.0, 0.0,
         0.0, zy, 0.0,
         0.0, 0.0, 1.0)
  }

  /**
    The shift along one axis: the drawn fraction times the extent, or exactly
    0 for a non-positive range. A draw within the range shifts by at most the
    range times the extent.
  */
  function Shift(range: real, extent: nat, u: real): (t: real)
    ensures range <= 0.0 ==> t == 0.0
    ensures range > 0.0 && InUniform(-range, range, u) ==>
              -(range * extent as real) <= t <= range * extent as real
  {
    if range > 0.0 then
      if -range <= u <= range then ScaledBound(u, range, extent as real); u * extent as real
      else u * extent as real
    else 0.0
  }

  /**
    The matrix part of `transform` for an image of the given height and
    width. Only a Zoom whose range has fewer than two items fails, when it
    indexes `zoom_range[0]` or `zoom_range[1]`.
  */
  function BuildMatrix(config: BuilderConfig, height: nat, width: nat, sample: Sample): (r: Result<Mat3>)
    requires Matches(config, sample)
    ensures r.Failure? <==> config.ZoomConfig? && |config.zoomRange| < 2
    ensures r.Failure? ==> r.error == IndexError("index out of range")
    ensures r.Success? ==> IsAffine(r.value)
  {
    match config
    case RotateConfig(_) => Success(RotationMatrix(sample.sin, sample.cos))
    case TranslateConfig(h, w) => Success(Translation(Shift(h, height, sample.u), Shift(w, width, sample.v)))
    case ShearConfig(_) => Success(ShearMatrix(sample.sin, sample.cos))
    case ZoomConfig(z) =>
      if |z| < 2 then Failure(IndexError("index out of range"))
      else Success(ZoomMatrix(sample.zx, sample.zy))
  }

  /**
    Rotate builds the rotation matrix of its draw, which is orthonormal with
    determinant 1 in its linear block and undone by the rotation by minus the angle.
  */
  lemma RotationIsOrthonormal(r: real, height: nat, width: nat, sample: Sample)
    requires Fits(RotateConfig(r), sample)
    ensures BuildMatrix(RotateConfig(r), height, width, sample) == Success(RotationMatrix(sample.sin, sample.cos))
    ensures var m := RotationMatrix(sample.sin, sample.cos);
            && Det2(Linear(m)) == 1.0
            && Mul2(Transpose2(Linear(m)), Linear(m)) == Identity2()
            && Mul(m, RotationMatrix(-sample.sin, sample.cos)) == Identity()
  {
  }

  /** Rotations compose by adding their angles (the sum formulas for sine and cosine). */
  lemma RotationsCompose(s1: real, c1: real, s2: real, c2: real)
    ensures Mul(RotationMatrix(s1, c1), RotationMatrix(s2, c2))
         == RotationMatrix(s1 * c2 + c1 * s2, c1 * c2 - s1 * s2)
  {
  }

  /**
    Shear builds the shear matrix of its draw, which keeps the first axis where
    it is and scales area by the cosine of the angle.
  */
  lemma ShearDeterminant(r: real, height: nat, width: nat, sample: Sample)
    requires Fits(ShearConfig(r), sample)
    ensures BuildMatrix(ShearConfig(r), height, width, sample) == Success(ShearMatrix(sample.sin, sample.cos))
    ensures Apply2(Linear(ShearMatrix(sample.sin, sample.cos)), Vec2(1.0, 0.0)) == Vec2(1.0, 0.0)
    ensures Det2(Linear(ShearMatrix(sample.sin, sample.cos))) == sample.cos
  {
  }

  /** Zooms multiply axis by axis and commute. */
  lemma ZoomsCompose(px: real, py: real, qx: real, qy: real)
    ensures Mul(ZoomMatrix(px, py), ZoomMatrix(qx, qy)) == ZoomMatrix(px * qx, py * qy)
    ensures Mul(ZoomMatrix(px, py), ZoomMatrix(qx, qy)) == Mul(ZoomMatrix(qx, qy), ZoomMatrix(px, py))
  {
  }

  /** |u·n| <= h·n when |u| <= h and n >= 0. */
  lemma ScaledBound(u: real, h: real, n: real)
    requires -h <= u <= h && n >= 0.0
    ensures -(h * n) <= u * n <= h * n
  {
    assert (h - u) * n >= 0.0;
    assert (u + h) * n >= 0.0;
  }

  /**
    A translation matrix has the identity as linear part; its shift is
    exactly 0 on an axis whose range is not positive, and at most the range
    times the extent otherwise.
  */
  lemma TranslateShiftBounded(config: BuilderConfig, height: nat, width: nat, sample: Sample)
    requires config.TranslateConfig? && Fits(config, sample)
    ensures BuildMatrix(config, height, width, sample).Success?
    ensures var m := BuildMatrix(config, height, width, sample).value;
            && Linear(m) == Identity2()
            && (config.heightRange <= 0.0 ==> m.m02 == 0.0)
            && (config.widthRange <= 0.0 ==> m.m12 == 0.0)
            && (config.heightRange > 0.0 ==>
                  -(config.heightRange * height as real) <= m.m02 <= config.heightRange * height as real)
            && (config.widthRange > 0.0 ==>
                  -(config.widthRange * width as real) <= m.m12 <= config.widthRange * width as real)
  {
    if config.heightRange > 0.0 {
      ScaledBound(sample.u, config.heightRange, height as real);
    }
    if config.widthRange > 0.0 {
      ScaledBound(sample.v, config.widthRange, width as real);
    }
  }

  /** Zoom scales the two axes by the two independent draws, each within the range. */
  lemma ZoomScalesWithinRange(z: seq<real>, height: nat, width: nat, sample: Sample)
    requires |z| >= 2 && Fits(ZoomConfig(z), sample)
    ensures BuildMatrix(ZoomConfig(z), height, width, sample) == Success(ZoomMatrix(sample.zx, sample.zy))
    ensures InUniform(z[0], z[1], Linear(ZoomMatrix(sample.zx, sample.zy)).a00)
    ensures InUniform(z[0], z[1], Linear(ZoomMatrix(sample.zx, sample.zy)).a11)
  {
  }

  /** A range under which the builder can only produce the identity. */
  predicate Neutral(config: BuilderConfig) {
    match config
    case RotateConfig(r) => r == 0.0
    case TranslateConfig(h, w) => h <= 0.0 && w <= 0.0
    case ShearConfig(r) => r == 0.0
    case ZoomConfig(z) => |z| >= 2 && z[0] == 1.0 && z[1] == 1.0
  }

  /** Zero rotation, shear and translation ranges and the zoom range (1, 1) build the identity. */
  lemma NeutralBuildsIdentity(config: BuilderConfig, height: nat, width: nat, sample: Sample)
    requires Neutral(config) && Fits(config, sample)
    ensures BuildMatrix(config, height, width, sample) == Success(Identity())
  {
  }

  // ---------------------------------------------------------------- the constructors

  /** The default fills of every builder and composer: constant 0 for the image, nearest for the target. */
  const DefaultFill := Fill(Constant, 0.0)
  const DefaultTargetFill := Fill(Nearest, 0.0)

  /**
    `Translate.__init__`: a float range is used for both axes; otherwise the
    first two items are the height and width ranges. An int is not
    subscriptable and a sequence of fewer than two items has no index 1.
  */
  function TranslateConfigOf(arg: RangeArg): (r: Result<BuilderConfig>)
    ensures r.Success? <==> arg.FloatArg? || (arg.ItemsArg? && |arg.items| >= 2)
    ensures r.Success? ==> r.value.TranslateConfig?
    ensures arg.FloatArg? ==> r.value.heightRange == arg.f && r.value.widthRange == arg.f
    ensures arg.ItemsArg? && r.Success? ==>
              r.value.heightRange == arg.items[0] && r.value.widthRange == arg.items[1]
  {
    match arg
    case FloatArg(f) => Success(TranslateConfig(f, f))
    case IntArg(_) => Failure(TypeError("'int' object is not subscriptable"))
    case ItemsArg(items) =>
      if |items| < 2 then Failure(IndexError("index out of range"))
      else Success(TranslateConfig(items[0], items[1]))
  }

  /**
    `Zoom.__init__`: anything but a list or tuple is a ValueError. Neither the
    number of items nor their order is checked.
  */
  function ZoomConfigOf(arg: RangeArg): (r: Result<BuilderConfig>)
    ensures r.Failure? <==> !arg.ItemsArg?
    ensures r.Failure? ==> r.error.ValueError?
    ensures r.Success? ==> r.value == ZoomConfig(arg.items)
  {
    if arg.ItemsArg? then Success(ZoomConfig(arg.items))
    else Failure(ValueError("zoom_range must be tuple or list with 2 values"))
  }

  /** A list of any length, and one whose low end exceeds its high end, pass Zoom's check. */
  lemma ZoomChecksOnlyTheType()
    ensures ZoomConfigOf(ItemsArg([])).Success?
    ensures ZoomConfigOf(ItemsArg([1.4, 0.7])).Success?
    ensures ZoomConfigOf(FloatArg(1.2)).Failure?
  {
  }

  /** What a builder's `transform` returns: the matrix when lazy, the transformed image(s) otherwise. */
  datatype BuilderOutput = MatrixOut(m: Mat3) | ImageOut(out: Output)

  /**
    A Rotate, Translate, Shear or Zoom object. Its range and fills are set
    once by the constructor; `lazy` is the one field other code changes.
  */
  class Builder {
    const config: BuilderConfig
    const fill: Fill
    const targetFill: Fill
    var lazy: bool

    constructor (config: BuilderConfig, fill: Fill, targetFill: Fill, lazy: bool)
      ensures this.config == config && this.fill == fill && this.targetFill == targetFill
      ensures this.lazy == lazy
    {
      this.config := config;
      this.fill := fill;
      this.targetFill := targetFill;
      this.lazy := lazy;
    }

    /** `Rotate(rotation_range, ...)` stores its range as given. */
    static method Rotate(rotationRange: real, fill: Fill, targetFill: Fill, lazy: bool) returns (b: Builder)
      ensures fresh(b) && b.config == RotateConfig(rotationRange)
      ensures b.fill == fill && b.targetFill == targetFill && b.lazy == lazy
    {
      b := new Builder(RotateConfig(rotationRange), fill, targetFill, lazy);
    }

    /** `Translate(translation_range, ...)`, which may raise on a malformed range. */
    static method Translate(arg: RangeArg, fill: Fill, targetFill: Fill, lazy: bool) returns (r: Result<Builder>)
      ensures r.Success? <==> TranslateConfigOf(arg).Success?
      ensures r.Failure? ==> r.error == TranslateConfigOf(arg).error
      ensures r.Success? ==> fresh(r.value) && r.value.config == TranslateConfigOf(arg).value
      ensures r.Success? ==> r.value.fill == fill && r.value.targetFill == targetFill && r.value.lazy == lazy
    {
      var config := TranslateConfigOf(arg);
      if config.Failure? {
        return Failure(config.error);
      }
      var b := new Builder(config.value, fill, targetFill, lazy);
      r := Success(b);
    }

    /** `Shear(shear_range, ...)` stores its range as given. */
    static method Shear(shearRange: real, fill: Fill, targetFill: Fill, lazy: bool) returns (b: Builder)
      ensures fresh(b) && b.config == ShearConfig(shearRange)
      ensures b.fill == fill && b.targetFill == targetFill && b.lazy == lazy
    {
      b := new Builder(ShearConfig(shearRange), fill, targetFill, lazy);
    }

    /** `Zoom(zoom_range, ...)`, which raises ValueError unless the range is a list or tuple. */
    static method Zoom(arg: RangeArg, fill: Fill, targetFill: Fill, lazy: bool) returns (r: Result<Builder>)
      ensures r.Success? <==> arg.ItemsArg?
      ensures r.Failure? ==> r.error == ZoomConfigOf(arg).error
      ensures r.Success? ==> fresh(r.value) && r.value.config == ZoomConfig(arg.items)
      ensures r.Success? ==> r.value.fill == fill && r.value.targetFill == targetFill && r.value.lazy == lazy
    {
      var config := ZoomConfigOf(arg);
      if config.Failure? {
        return Failure(config.error);
      }
      var b := new Builder(config.value, fill, targetFill, lazy);
      r := Success(b);
    }

    /**
      `transform(X, y)`: build the matrix from the sample; return it when
      lazy, otherwise apply it to X with `fill` and to y with `targetFill`.
    */
    method Transform(x: Image, y: Option<Image>, sample: Sample) returns (r: Result<BuilderOutput>)
      requires Matches(config, sample)
      ensures var built := BuildMatrix(config, x.height, x.width, sample);
              built.Failure? ==> r == Failure(built.error)
      ensures var built := BuildMatrix(config, x.height, x.width, sample);
              built.Success? && lazy ==> r == Success(MatrixOut(built.value))
      ensures var built := BuildMatrix(config, x.height, x.width, sample);
              built.Success? && !lazy ==>
                var out := ApplyToPair(x, y, built.value, fill, targetFill);
                && (r.Failure? <==> out.Failure?)
                && (r.Failure? ==> r.error == out.error)
                && (r.Success? ==> r.value == ImageOut(out.value))
    {
      var built := BuildMatrix(config, x.height, x.width, sample);
      if built.Failure? {
        return Failure(built.error);
      }
      if lazy {
        return Success(MatrixOut(built.value));
      }
      var out := ApplyToPair(x, y, built.value, fill, targetFill);
      if out.Failure? {
        return Failure(out.error);
      }
      r := Success(ImageOut(out.value));
    }
  }
}
