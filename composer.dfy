/**
  The matrix composers Affine and AffineCompose. Both hold an ordered list of
  lazy builders; `transform` collects one matrix per builder, multiplies them
  left to right into one matrix, and applies that single matrix to the image
  and, when given, to the target, each with its own fill.
*/
module Composer {
  import opened Outcomes
  import opened Homogeneous
  import opened Resampling
  import opened Builders

  /** There is one sample per builder, of the kind that builder draws. */
  predicate AllMatch(configs: seq<BuilderConfig>, samples: seq<Sample>) {
    |samples| == |configs| && forall i :: 0 <= i < |configs| ==> Matches(configs[i], samples[i])
  }

  /** Building this builder's matrix raises (a Zoom whose range has fewer than two items). */
  predicate BuildFails(config: BuilderConfig) {
    config.ZoomConfig? && |config.zoomRange| < 2
  }

  /**
    The composition loop of `transform`, with each builder called for its
    lazy matrix: M0 from the first builder, then M := M·Mi for every later
    one in list order. An empty list fails on index 0, a failing builder's
    error propagates, and a single builder's matrix is returned unchanged.
  */
  function ComposedMatrix(configs: seq<BuilderConfig>, height: nat, width: nat, samples: seq<Sample>): (r: Result<Mat3>)
    requires AllMatch(configs, samples)
    ensures r.Failure? <==> |configs| == 0 || exists i :: 0 <= i < |configs| && BuildFails(configs[i])
    ensures r.Failure? ==> r.error == IndexError("index out of range")
    ensures |configs| == 1 ==> r == BuildMatrix(configs[0], height, width, samples[0])
    ensures r.Success? ==> IsAffine(r.value)
    decreases |configs|
  {
    if |configs| == 0 then Failure(IndexError("index out of range"))
    else if |configs| == 1 then BuildMatrix(configs[0], height, width, samples[0])
    else
      var n := |configs| - 1;
      assert forall i :: 0 <= i < n ==> configs[..n][i] == configs[i];
      match ComposedMatrix(configs[..n], height, width, samples[..n])
      case Failure(e) => Failure(e)
      case Success(m) =>
        match BuildMatrix(configs[n], height, width, samples[n])
        case Failure(e) => Failure(e)
        case Success(last) =>
          MulAffine(m, last);
          Success(Mul(m, last))
  }

  /**
    The composed matrix is M0·(M1·…·Mk): the first builder's matrix times
    the composition of the rest, so the whole is the ordered product.
  */
  lemma {:induction false} ComposedMatrixFactors(configs: seq<BuilderConfig>, height: nat, width: nat, samples: seq<Sample>)
    requires AllMatch(configs, samples) && |configs| >= 2
    requires ComposedMatrix(configs, height, width, samples).Success?
    ensures AllMatch(configs[1..], samples[1..])
    ensures ComposedMatrix(configs[1..], height, width, samples[1..]).Success?
    ensures ComposedMatrix(configs, height, width, samples).value
         == Mul(BuildMatrix(configs[0], height, width, samples[0]).value,
                ComposedMatrix(configs[1..], height, width, samples[1..]).value)
    decreases |configs|
  {
    var n := |configs| - 1;
    assert AllMatch(configs[1..], samples[1..]) by {
      assert forall i :: 0 <= i < n ==> configs[1..][i] == configs[i + 1] && samples[1..][i] == samples[i + 1];
    }
    assert AllMatch(configs[..n], samples[..n]) by {
      assert forall i :: 0 <= i < n ==> configs[..n][i] == configs[i] && samples[..n][i] == samples[i];
    }
    var m0 := BuildMatrix(configs[0], height, width, samples[0]).value;
    var last := BuildMatrix(configs[n], height, width, samples[n]).value;
    var prefix := ComposedMatrix(configs[..n], height, width, samples[..n]).value;
    if n == 1 {
      assert configs[1..] == [configs[1]] && samples[1..] == [samples[1]];
      assert configs[..n] == [configs[0]] && samples[..n] == [samples[0]];
    } else {
      ComposedMatrixFactors(configs[..n], height, width, samples[..n]);
      assert configs[..n][1..] == configs[1..][..n - 1];
      assert samples[..n][1..] == samples[1..][..n - 1];
      assert configs[..n][0] == configs[0] && samples[..n][0] == samples[0];
      assert configs[1..][n - 1] == configs[n] && samples[1..][n - 1] == samples[n];
      var middle := ComposedMatrix(configs[1..][..n - 1], height, width, samples[1..][..n - 1]).value;
      assert prefix == Mul(m0, middle);
      assert ComposedMatrix(configs[1..], height, width, samples[1..]).value == Mul(middle, last);
      MulAssociative(m0, middle, last);
    }
  }

  /** Builders with zero ranges (zoom (1, 1)) compose to the identity. */
  lemma {:induction false} NeutralComposesToIdentity(configs: seq<BuilderConfig>, height: nat, width: nat, samples: seq<Sample>)
    requires AllMatch(configs, samples) && |configs| >= 1
    requires forall i :: 0 <= i < |configs| ==> Neutral(configs[i]) && Fits(configs[i], samples[i])
    ensures ComposedMatrix(configs, height, width, samples) == Success(Identity())
    decreases |configs|
  {
    var n := |configs| - 1;
    NeutralBuildsIdentity(configs[n], height, width, samples[n]);
    if n > 0 {
      assert AllMatch(configs[..n], samples[..n]) && forall i :: 0 <= i < n ==>
        Neutral(configs[..n][i]) && Fits(configs[..n][i], samples[..n][i]) by {
        assert forall i :: 0 <= i < n ==> configs[..n][i] == configs[i] && samples[..n][i] == samples[i];
      }
      NeutralComposesToIdentity(configs[..n], height, width, samples[..n]);
      MulIdentity(Identity());
      assert ComposedMatrix(configs, height, width, samples) == Success(Mul(Identity(), Identity()));
    }
  }

  // ---------------------------------------------------------------- Affine's stages

  /** Python truthiness of an optional number: given and non-zero. */
  predicate GivenNumber(arg: Option<real>) {
    arg.Some? && arg.value != 0.0
  }

  /** Python truthiness of an optional range argument. */
  predicate GivenRange(arg: Option<RangeArg>) {
    arg.Some? && Truthy(arg.value)
  }

  /** The position of a builder kind in Affine's fixed order: rotate, translate, shear, zoom. */
  function Rank(config: BuilderConfig): nat {
    match config
    case RotateConfig(_) => 0
    case TranslateConfig(_, _) => 1
    case ShearConfig(_) => 2
    case ZoomConfig(_) => 3
  }

  /** The rotate stage: one RotateConfig when the rotation range is truthy. */
  function RotateStage(rotation: Option<real>): seq<BuilderConfig> {
    if GivenNumber(rotation) then [RotateConfig(rotation.value)] else []
  }

  /** The translate stage: one TranslateConfig when the range is truthy and well formed. */
  function TranslateStage(translation: Option<RangeArg>): seq<BuilderConfig> {
    if GivenRange(translation) && TranslateConfigOf(translation.value).Success?
    then [TranslateConfigOf(translation.value).value] else []
  }

  /** The shear stage: one ShearConfig when the shear range is truthy. */
  function ShearStage(shear: Option<real>): seq<BuilderConfig> {
    if GivenNumber(shear) then [ShearConfig(shear.value)] else []
  }

  /** The zoom stage: one ZoomConfig when the range is truthy and a list or tuple. */
  function ZoomStage(zoom: Option<RangeArg>): seq<BuilderConfig> {
    if GivenRange(zoom) && ZoomConfigOf(zoom.value).Success? then [ZoomConfigOf(zoom.value).value] else []
  }

  /** The exception Translate's constructor raises on a truthy but malformed range, if any. */
  function TranslateError(translation: Option<RangeArg>): Option<Error> {
    if GivenRange(translation) && TranslateConfigOf(translation.value).Failure? then
      Some(TranslateConfigOf(translation.value).error)
    else
      None
  }

  /** The exception Zoom's constructor raises on a truthy range that is not a list or tuple, if any. */
  function ZoomError(zoom: Option<RangeArg>): Option<Error> {
    if GivenRange(zoom) && ZoomConfigOf(zoom.value).Failure? then
      Some(ZoomConfigOf(zoom.value).error)
    else
      None
  }

  /** The exception `Affine.__init__` raises, if any: Translate's first, then Zoom's. */
  function AffineError(translation: Option<RangeArg>, zoom: Option<RangeArg>): Option<Error> {
    if TranslateError(translation).Some? then TranslateError(translation) else ZoomError(zoom)
  }

  /** The configs `Affine.__init__` builds: one stage per truthy range, rotate, translate, shear, zoom. */
  function AffineStages(rotation: Option<real>, translation: Option<RangeArg>,
                        shear: Option<real>, zoom: Option<RangeArg>): seq<BuilderConfig> {
    RotateStage(rotation) + TranslateStage(translation) + ShearStage(shear) + ZoomStage(zoom)
  }

  /** Some config in `cs` is of the kind ranked k. */
  predicate HasRank(cs: seq<BuilderConfig>, k: nat) {
    exists i :: 0 <= i < |cs| && Rank(cs[i]) == k
  }

  /** The configs in `cs` come in strictly increasing rank, so each kind at most once. */
  predicate RanksIncrease(cs: seq<BuilderConfig>) {
    forall i, j :: 0 <= i < j < |cs| ==> Rank(cs[i]) < Rank(cs[j])
  }

  /**
    Affine's stages come in the fixed order rotate, translate, shear, zoom,
    and a stage is present exactly when its range is truthy.
  */
  lemma AffineStagesInOrder(rotation: Option<real>, translation: Option<RangeArg>,
                            shear: Option<real>, zoom: Option<RangeArg>)
    requires AffineError(translation, zoom).None?
    ensures var cs := AffineStages(rotation, translation, shear, zoom);
            && RanksIncrease(cs)
            && (GivenNumber(rotation) <==> HasRank(cs, 0))
            && (GivenRange(translation) <==> HasRank(cs, 1))
            && (GivenNumber(shear) <==> HasRank(cs, 2))
            && (GivenRange(zoom) <==> HasRank(cs, 3))
  {
    var rot, tr, sh, zm := RotateStage(rotation), TranslateStage(translation), ShearStage(shear), ZoomStage(zoom);
    assert |tr| == 1 <==> GivenRange(translation);
    assert |zm| == 1 <==> GivenRange(zoom);
    assert forall c :: c in tr ==> Rank(c) == 1;
    assert forall c :: c in zm ==> Rank(c) == 3;
    StagesOrdered(rot, tr, sh, zm);
    StagesPresent(rot, tr, sh, zm);
  }

  /** In a concatenation of the four stages, a kind occurs exactly when its stage is not empty. */
  lemma StagesPresent(rot: seq<BuilderConfig>, tr: seq<BuilderConfig>, sh: seq<BuilderConfig>, zm: seq<BuilderConfig>)
    requires |rot| <= 1 && |tr| <= 1 && |sh| <= 1 && |zm| <= 1
    requires forall c :: c in rot ==> Rank(c) == 0
    requires forall c :: c in tr ==> Rank(c) == 1
    requires forall c :: c in sh ==> Rank(c) == 2
    requires forall c :: c in zm ==> Rank(c) == 3
    ensures var all := rot + tr + sh + zm;
            && (HasRank(all, 0) <==> |rot| == 1)
            && (HasRank(all, 1) <==> |tr| == 1)
            && (HasRank(all, 2) <==> |sh| == 1)
            && (HasRank(all, 3) <==> |zm| == 1)
  {
    var all := rot + tr + sh + zm;
    forall k | 0 <= k < 4 && HasRank(all, k)
      ensures |[rot, tr, sh, zm][k]| == 1
    {
      var i :| 0 <= i < |all| && Rank(all[i]) == k;
      assert all[i] in rot || all[i] in tr || all[i] in sh || all[i] in zm;
    }
    if |rot| == 1 { assert Rank(all[0]) == 0; }
    if |tr| == 1 { assert all[|rot|] in tr; assert Rank(all[|rot|]) == 1; }
    if |sh| == 1 { assert all[|rot| + |tr|] in sh; assert Rank(all[|rot| + |tr|]) == 2; }
    if |zm| == 1 { assert all[|rot| + |tr| + |sh|] in zm; assert Rank(all[|rot| + |tr| + |sh|]) == 3; }
  }

  /** Each stage carries the range its argument gave. */
  lemma AffineStagesCarryTheirRanges(rotation: Option<real>, translation: Option<RangeArg>,
                                     shear: Option<real>, zoom: Option<RangeArg>, i: nat)
    requires i < |AffineStages(rotation, translation, shear, zoom)|
    ensures var c := AffineStages(rotation, translation, shear, zoom)[i];
            match c
            case RotateConfig(range) => rotation == Some(range)
            case TranslateConfig(_, _) => translation.Some? && TranslateConfigOf(translation.value) == Success(c)
            case ShearConfig(range) => shear == Some(range)
            case ZoomConfig(z) => zoom == Some(ItemsArg(z))
  {
    var rot, tr, sh, zm := RotateStage(rotation), TranslateStage(translation), ShearStage(shear), ZoomStage(zoom);
    var cs := rot + tr + sh + zm;
    assert cs[i] in rot || cs[i] in tr || cs[i] in sh || cs[i] in zm;
  }

  /** Concatenating at most one rotate, translate, shear and zoom stage, in that order, ranks them strictly increasing. */
  lemma StagesOrdered(rot: seq<BuilderConfig>, tr: seq<BuilderConfig>, sh: seq<BuilderConfig>, zm: seq<BuilderConfig>)
    requires |rot| <= 1 && |tr| <= 1 && |sh| <= 1 && |zm| <= 1
    requires forall c :: c in rot ==> Rank(c) == 0
    requires forall c :: c in tr ==> Rank(c) == 1
    requires forall c :: c in sh ==> Rank(c) == 2
    requires forall c :: c in zm ==> Rank(c) == 3
    ensures RanksIncrease(rot + tr + sh + zm)
  {
    var all := rot + tr + sh + zm;
    forall i, j | 0 <= i < j < |all|
      ensures Rank(all[i]) < Rank(all[j])
    {
      assert all[i] in all && all[j] in all;
    }
  }

  /** With no truthy range, Affine holds no stage, and its `transform` fails on index 0. */
  lemma AffineWithoutRangesCannotTransform(rotation: Option<real>, translation: Option<RangeArg>,
                                           shear: Option<real>, zoom: Option<RangeArg>, height: nat, width: nat)
    requires !GivenNumber(rotation) && !GivenRange(translation) && !GivenNumber(shear) && !GivenRange(zoom)
    ensures AffineError(translation, zoom).None? && AffineStages(rotation, translation, shear, zoom) == []
    ensures ComposedMatrix([], height, width, []).Failure?
  {
  }

  // ---------------------------------------------------------------- the composer object

  /** The ranges of a list of builders, in list order. */
  function ConfigsOf(bs: seq<Builder>): (cs: seq<BuilderConfig>)
    ensures |cs| == |bs| && forall i :: 0 <= i < |bs| ==> cs[i] == bs[i].config
  {
    seq(|bs|, i requires 0 <= i < |bs| => bs[i].config)
  }

  /**
    An Affine or AffineCompose object: the ordered list of builders and the
    fills for the image and for the target.
  */
  class Composer {
    var transforms: seq<Builder>
    const fill: Fill
    const targetFill: Fill

    /** Every builder returns its matrix rather than an image. */
    ghost predicate Valid()
      reads this, transforms
    {
      forall b :: b in transforms ==> b.lazy
    }

    /** The ranges of the builders, in list order. */
    function Configs(): (cs: seq<BuilderConfig>)
      reads this
      ensures |cs| == |transforms| && forall i :: 0 <= i < |transforms| ==> cs[i] == transforms[i].config
    {
      ConfigsOf(transforms)
    }

    constructor Empty(fill: Fill, targetFill: Fill)
      ensures transforms == [] && this.fill == fill && this.targetFill == targetFill
    {
      transforms := [];
      this.fill := fill;
      this.targetFill := targetFill;
    }

    /**
      `Affine(rotation_range, translation_range, shear_range, zoom_range, ...)`:
      appends a lazy builder for every truthy range, in the order rotate,
      translate, shear, zoom; a malformed translation or zoom range raises
      from that builder's constructor.
    */
    static method Affine(rotation: Option<real>, translation: Option<RangeArg>,
                         shear: Option<real>, zoom: Option<RangeArg>,
                         fill: Fill, targetFill: Fill) returns (r: Result<Composer>)
      ensures r.Failure? <==> AffineError(translation, zoom).Some?
      ensures r.Failure? ==> r.error == AffineError(translation, zoom).value
      ensures r.Success? ==> fresh(r.value) && r.value.Valid() && ConfigsOf(r.value.transforms) == AffineStages(rotation, translation, shear, zoom)
      ensures r.Success? ==> r.value.fill == fill && r.value.targetFill == targetFill
      ensures r.Success? ==> forall i :: 0 <= i < |r.value.transforms| ==> fresh(r.value.transforms[i])
    {
      var c := new Composer.Empty(fill, targetFill);
      c.AddRotate(rotation);
      var e := c.AddTranslate(translation);
      if e.Some? {
        return Failure(e.value);
      }
      c.AddShear(shear);
      e := c.AddZoom(zoom);
      if e.Some? {
        return Failure(e.value);
      }
      r := Success(c);
    }

    /** The `if rotation_range:` step of Affine's constructor. */
    method AddRotate(rotation: Option<real>)
      modifies this
      requires Valid()
      ensures Valid() && ConfigsOf(transforms) == ConfigsOf(old(transforms)) + RotateStage(rotation)
      ensures transforms[..|old(transforms)|] == old(transforms)
      ensures forall i :: |old(transforms)| <= i < |transforms| ==> fresh(transforms[i])
    {
      if GivenNumber(rotation) {
        var b := Builder.Rotate(rotation.value, DefaultFill, DefaultTargetFill, true);
        Append(b);
      }
    }

    /** The `if translation_range:` step; it returns the error `Translate` raises, if any. */
    method AddTranslate(translation: Option<RangeArg>) returns (e: Option<Error>)
      modifies this
      requires Valid()
      ensures e == TranslateError(translation)
      ensures Valid() && ConfigsOf(transforms) == ConfigsOf(old(transforms)) + TranslateStage(translation)
      ensures transforms[..|old(transforms)|] == old(transforms)
      ensures forall i :: |old(transforms)| <= i < |transforms| ==> fresh(transforms[i])
    {
      e := None;
      if GivenRange(translation) {
        var t := Builder.Translate(translation.value, DefaultFill, DefaultTargetFill, true);
        if t.Failure? {
          return Some(t.error);
        }
        Append(t.value);
      }
    }

    /** The `if shear_range:` step of Affine's constructor. */
    method AddShear(shear: Option<real>)
      modifies this
      requires Valid()
      ensures Valid() && ConfigsOf(transforms) == ConfigsOf(old(transforms)) + ShearStage(shear)
      ensures transforms[..|old(transforms)|] == old(transforms)
      ensures forall i :: |old(transforms)| <= i < |transforms| ==> fresh(transforms[i])
    {
      if GivenNumber(shear) {
        var b := Builder.Shear(shear.value, DefaultFill, DefaultTargetFill, true);
        Append(b);
      }
    }

    /** The `if zoom_range:` step; it returns the error `Zoom` raises, if any. */
    method AddZoom(zoom: Option<RangeArg>) returns (e: Option<Error>)
      modifies this
      requires Valid()
      ensures e == ZoomError(zoom)
      ensures Valid() && ConfigsOf(transforms) == ConfigsOf(old(transforms)) + ZoomStage(zoom)
      ensures transforms[..|old(transforms)|] == old(transforms)
      ensures forall i :: |old(transforms)| <= i < |transforms| ==> fresh(transforms[i])
    {
      e := None;
      if GivenRange(zoom) {
        var z := Builder.Zoom(zoom.value, DefaultFill, DefaultTargetFill, true);
        if z.Failure? {
          return Some(z.error);
        }
        Append(z.value);
      }
    }

    /** `self.transforms.append(b)`. */
    method Append(b: Builder)
      modifies this
      ensures transforms == old(transforms) + [b]
      ensures ConfigsOf(transforms) == ConfigsOf(old(transforms)) + [b.config]
      ensures Valid() <==> old(Valid()) && b.lazy
    {
      transforms := transforms + [b];
    }

    /**
      `AffineCompose(transforms, ...)`: keeps the caller's builders in their
      order and sets `lazy` on each of them; nothing else about them changes.
    */
    constructor AffineCompose(transforms: seq<Builder>, fill: Fill, targetFill: Fill)
      modifies set b | b in transforms
      ensures this.transforms == transforms && this.fill == fill && this.targetFill == targetFill
      ensures Valid()
    {
      this.transforms := transforms;
      this.fill := fill;
      this.targetFill := targetFill;
      new;
      var i := 0;
      while i < |transforms|
        invariant 0 <= i <= |transforms|
        invariant this.transforms == transforms
        invariant forall j :: 0 <= j < i ==> transforms[j].lazy
      {
        transforms[i].lazy := true;
        i := i + 1;
      }
    }

    /**
      `transform(X, y)`: compose the builders' matrices in list order, then
      apply the one composed matrix to X with `fill` and, when y is given, to
      y with `targetFill`. A failing builder's error, or then the error of
      `apply_transform`, is raised.
    */
    method Transform(x: Image, y: Option<Image>, samples: seq<Sample>) returns (r: Result<Output>)
      requires Valid() && AllMatch(Configs(), samples)
      ensures var cm := ComposedMatrix(Configs(), x.height, x.width, samples);
              cm.Failure? ==> r == Failure(cm.error)
      ensures var cm := ComposedMatrix(Configs(), x.height, x.width, samples);
              cm.Success? ==> r == ApplyToPair(x, y, cm.value, fill, targetFill)
    {
      var cs := Configs();
      if |transforms| == 0 {
        return Failure(IndexError("index out of range"));
      }
      var first := transforms[0].Transform(x, None, samples[0]);
      if first.Failure? {
        return Failure(first.error);
      }
      var m := first.value.m;
      assert cs[..1] == [cs[0]] && samples[..1] == [samples[0]];
      var i := 1;
      while i < |transforms|
        invariant 1 <= i <= |transforms|
        invariant AllMatch(cs[..i], samples[..i])
        invariant ComposedMatrix(cs[..i], x.height, x.width, samples[..i]) == Success(m)
      {
        var next := transforms[i].Transform(x, None, samples[i]);
        if next.Failure? {
          assert BuildFails(cs[i]);
          return Failure(next.error);
        }
        assert cs[..i + 1][..i] == cs[..i] && samples[..i + 1][..i] == samples[..i];
        assert AllMatch(cs[..i + 1], samples[..i + 1]);
        m := Mul(m, next.value.m);
        i := i + 1;
      }
      assert cs[..i] == cs && samples[..i] == samples;
      assert ComposedMatrix(cs, x.height, x.width, samples) == Success(m);
      r := ApplyToPair(x, y, m, fill, targetFill);
    }
  }

  // ---------------------------------------------------------------- the call as written

  /**
    Lines 170 and 226 as written: `self.transforms[0](X)` calls the builder
    object itself, and no builder defines `__call__`, so the call raises
    TypeError (IndexError first when the list is empty).
  */
  function ComposedMatrixAsWritten(configs: seq<BuilderConfig>): (r: Result<Mat3>)
    ensures r.Failure?
    ensures |configs| > 0 ==> r.error.TypeError?
  {
    if |configs| == 0 then Failure(IndexError("index out of range"))
    else Failure(TypeError("object is not callable"))
  }

  /** A single Rotate(10) with a zero draw: as written no matrix comes out; as intended the identity does. */
  lemma AsWrittenNeverComposes(height: nat, width: nat)
    ensures ComposedMatrixAsWritten([RotateConfig(10.0)]).Failure?
    ensures ComposedMatrix([RotateConfig(10.0)], height, width, [RotateSample(0.0, 0.0, 1.0)]) == Success(Identity())
  {
  }
}
