/**
  Centering and resampling: `transform_matrix_offset_center` re-anchors a
  transform at the image centre, and `apply_transform` hands the centred
  linear part and offset to scipy's per-channel `affine_transform`. The
  resampling itself is foreign code; a call of it is recorded here as a
  `ChannelCall` value that carries exactly the arguments it receives.
*/
module Resampling {
  import opened Outcomes
  import opened Homogeneous

  // ---------------------------------------------------------------- centering

  /**
    The centre offsets (o_x, o_y) = (x/2 + 0.5, y/2 + 0.5) of an x-by-y image:
    on each axis, the point halfway between 1 and the extent.
  */
  function Center(x: int, y: int): (o: Vec2)
    ensures o.x - 1.0 == x as real - o.x && o.y - 1.0 == y as real - o.y
  {
    Vec2(x as real / 2.0 + 0.5, y as real / 2.0 + 0.5)
  }

  /**
    `transform_matrix_offset_center(matrix, x, y)`: translate to the centre,
    apply `matrix`, translate back, i.e. T(o)·M·T(-o). For an affine M the
    linear block is kept and the offset becomes o - A·o + b.
  */
  function OffsetCenter(m: Mat3, x: int, y: int): (r: Mat3)
    ensures IsAffine(m) ==> IsAffine(r)
    ensures IsAffine(m) ==> Linear(r) == Linear(m)
    ensures IsAffine(m) ==> Offset(r) == Add(Sub(Center(x, y), Apply2(Linear(m), Center(x, y))), Offset(m))
  {
    var o := Center(x, y);
    if IsAffine(m) then
      MulAffine(Translation(o.x, o.y), m);
      MulAffine(Mul(Translation(o.x, o.y), m), Translation(-o.x, -o.y));
      Mul(Mul(Translation(o.x, o.y), m), Translation(-o.x, -o.y))
    else
      Mul(Mul(Translation(o.x, o.y), m), Translation(-o.x, -o.y))
  }

  /** The inverse conjugation T(-o)·M·T(o), which takes a centred matrix back to the origin. */
  function Uncenter(m: Mat3, x: int, y: int): Mat3 {
    var o := Center(x, y);
    Mul(Mul(Translation(-o.x, -o.y), m), Translation(o.x, o.y))
  }

  /** Centring and uncentring undo each other, for every matrix. */
  lemma CenterRoundTrip(m: Mat3, x: int, y: int)
    ensures Uncenter(OffsetCenter(m, x, y), x, y) == m
    ensures OffsetCenter(Uncenter(m, x, y), x, y) == m
  {
    var o := Center(x, y);
    var t, u := Translation(o.x, o.y), Translation(-o.x, -o.y);
    TranslationsCompose(o.x, o.y, -o.x, -o.y);
    TranslationsCompose(-o.x, -o.y, o.x, o.y);
    assert Mul(t, u) == Identity() && Mul(u, t) == Identity();
    calc {
      Uncenter(OffsetCenter(m, x, y), x, y);
      Mul(Mul(u, Mul(Mul(t, m), u)), t);
      { MulAssociative(u, Mul(t, m), u); }
      Mul(Mul(Mul(u, Mul(t, m)), u), t);
      { MulAssociative(Mul(u, Mul(t, m)), u, t); }
      Mul(Mul(u, Mul(t, m)), Mul(u, t));
      { MulIdentity(Mul(u, Mul(t, m))); }
      Mul(u, Mul(t, m));
      { MulAssociative(u, t, m); }
      Mul(Mul(u, t), m);
      { MulIdentity(m); }
      m;
    }
    calc {
      OffsetCenter(Uncenter(m, x, y), x, y);
      Mul(Mul(t, Mul(Mul(u, m), t)), u);
      { MulAssociative(t, Mul(u, m), t); }
      Mul(Mul(Mul(t, Mul(u, m)), t), u);
      { MulAssociative(Mul(t, Mul(u, m)), t, u); }
      Mul(Mul(t, Mul(u, m)), Mul(t, u));
      { MulIdentity(Mul(t, Mul(u, m))); }
      Mul(t, Mul(u, m));
      { MulAssociative(t, u, m); }
      Mul(Mul(t, u), m);
      { MulIdentity(m); }
      m;
    }
  }

  /** Centring is a conjugation, so it commutes with composition. */
  lemma CenterDistributes(a: Mat3, b: Mat3, x: int, y: int)
    ensures OffsetCenter(Mul(a, b), x, y) == Mul(OffsetCenter(a, x, y), OffsetCenter(b, x, y))
  {
    var o := Center(x, y);
    var t, u := Translation(o.x, o.y), Translation(-o.x, -o.y);
    TranslationsCompose(-o.x, -o.y, o.x, o.y);
    assert Mul(u, t) == Identity();
    calc {
      Mul(OffsetCenter(a, x, y), OffsetCenter(b, x, y));
      Mul(Mul(Mul(t, a), u), Mul(Mul(t, b), u));
      { MulAssociative(Mul(Mul(t, a), u), Mul(t, b), u); }
      Mul(Mul(Mul(Mul(t, a), u), Mul(t, b)), u);
      { MulAssociative(Mul(Mul(t, a), u), t, b); }
      Mul(Mul(Mul(Mul(Mul(t, a), u), t), b), u);
      { MulAssociative(Mul(t, a), u, t); }
      Mul(Mul(Mul(Mul(t, a), Mul(u, t)), b), u);
      { MulIdentity(Mul(t, a)); }
      Mul(Mul(Mul(t, a), b), u);
      { MulAssociative(t, a, b); }
      Mul(Mul(t, Mul(a, b)), u);
      OffsetCenter(Mul(a, b), x, y);
    }
  }

  /** The identity stays the identity when centred. */
  lemma CenterIdentity(x: int, y: int)
    ensures OffsetCenter(Identity(), x, y) == Identity()
  {
    var o := Center(x, y);
    MulIdentity(Translation(o.x, o.y));
    TranslationsCompose(o.x, o.y, -o.x, -o.y);
  }

  /**
    A centred map whose own offset is zero keeps the point (x/2 + 0.5, y/2 + 0.5)
    where it is. That pivot lies one pixel past the middle ((x - 1)/2, (y - 1)/2)
    of the 0-based pixel indices on each axis.
  */
  lemma CenterIsFixed(m: Mat3, x: int, y: int)
    requires IsAffine(m) && Offset(m) == Vec2(0.0, 0.0)
    ensures ApplyPoint(OffsetCenter(m, x, y), Center(x, y)) == Center(x, y)
    ensures Center(x, y) == Add(Vec2((x as real - 1.0) / 2.0, (y as real - 1.0) / 2.0), Vec2(1.0, 1.0))
  {
  }

  // ---------------------------------------------------------------- images and axes

  datatype FillMode = Constant | Nearest

  /** A fill mode with the value used when it is `Constant` (scipy's `mode` and `cval`). */
  datatype Fill = Fill(mode: FillMode, value: real)

  /** One channel: rows of pixel values. */
  type Plane = seq<seq<real>>

  /**
    An image in the layout that the default `channel_axis` of -1 and the
    translation's use of the first two axes as height and width assume:
    height x width x channels, the channels on the last axis. A 2-D image
    fails on its missing third axis, and at a higher rank the resampler
    rejects the 2x2 matrix.
  */
  datatype Image = Image(height: nat, width: nat, channels: seq<Plane>)

  function Shape(img: Image): seq<nat> {
    [img.height, img.width, |img.channels|]
  }

  /** The `channel_axis` argument of `apply_transform`; no caller overrides its default. */
  const ChannelAxis: int := -1

  /** A possibly negative axis number counted from the end, as numpy normalises it. */
  function AxisIndex(i: int, rank: nat): int {
    if i < 0 then i + rank else i
  }

  /**
    Where `rollaxis` puts the moved axis: before position `start` of the
    original numbering, which is one place further left once the axis has
    been taken out from before it.
  */
  function Landing(ax: int, st: int): int {
    if ax < st then st - 1 else st
  }

  /**
    numpy's `rollaxis(a, axis, start)` on the shape of `a`: both arguments may
    be negative; the axis is removed and re-inserted before position `start`,
    counted in the original numbering.
  */
  function RollAxis(s: seq<nat>, axis: int, start: int): (r: seq<nat>)
    requires -|s| <= axis < |s| && -|s| <= start <= |s|
    ensures |r| == |s|
    ensures var ax := AxisIndex(axis, |s|);
            var at := Landing(ax, AxisIndex(start, |s|));
            0 <= ax < |s| && 0 <= at < |s| && r[at] == s[ax] && r[..at] + r[at + 1..] == s[..ax] + s[ax + 1..]
  {
    var ax := AxisIndex(axis, |s|);
    var at := Landing(ax, AxisIndex(start, |s|));
    var rest := s[..ax] + s[ax + 1..];
    Splice(rest, s[ax], at);
    rest[..at] + [s[ax]] + rest[at..]
  }

  /** Inserting v at position `at` and taking it out again gives back the sequence. */
  lemma Splice(a: seq<nat>, v: nat, at: nat)
    requires at <= |a|
    ensures var r := a[..at] + [v] + a[at..];
            |r| == |a| + 1 && r[at] == v && r[..at] + r[at + 1..] == a
  {
    var r := a[..at] + [v] + a[at..];
    assert r[..at] == a[..at] && r[at + 1..] == a[at..];
    assert a[..at] + a[at..] == a;
  }

  /** Line 80: the channel axis, the last one, is rolled to the front. */
  function ChannelsFirst(s: seq<nat>): (r: seq<nat>)
    requires |s| > 0
    ensures r == [s[|s| - 1]] + s[..|s| - 1]
  {
    assert s[..|s| - 1] + s[|s|..] == s[..|s| - 1];
    RollAxis(s, ChannelAxis, 0)
  }

  /** Line 89 as written: `rollaxis(x, 0, channel_axis + 1)`, which for the default -1 is `rollaxis(x, 0, 0)`. */
  function RestoreAsWritten(s: seq<nat>): (r: seq<nat>)
    requires |s| > 0
    ensures r == s
  {
    assert [s[0]] + s[1..] == s;
    RollAxis(s, 0, ChannelAxis + 1)
  }

  /** The restore step as intended: the front axis goes back to the position of the channel axis, the last one. */
  function Restore(s: seq<nat>): (r: seq<nat>)
    requires |s| > 0
    ensures r == s[1..] + [s[0]]
  {
    var rest := s[..0] + s[1..];
    assert rest == s[1..] && rest[..|s| - 1] == rest && rest[|s| - 1..] == [];
    RollAxis(s, 0, |s|)
  }

  /** The restore step as written moves nothing, so the channels stay in front. */
  lemma RestoreAsWrittenKeepsChannelsFirst(img: Image)
    ensures RestoreAsWritten(ChannelsFirst(Shape(img))) == [|img.channels|, img.height, img.width]
    ensures |img.channels| != img.height ==> RestoreAsWritten(ChannelsFirst(Shape(img))) != Shape(img)
  {
    assert Shape(img)[..2] == [img.height, img.width];
  }

  /** The intended restore step undoes the first roll, whatever the rank. */
  lemma {:induction false} RestoreRoundTrip(s: seq<nat>)
    requires |s| > 0
    ensures Restore(ChannelsFirst(s)) == s
  {
    var t := ChannelsFirst(s);
    assert t[1..] == s[..|s| - 1];
    assert s[..|s| - 1] + [s[|s| - 1]] == s;
  }

  // ---------------------------------------------------------------- apply_transform

  /**
    One call of scipy's `affine_transform` on a single channel with the
    arguments `apply_transform` passes it. The resampled pixels are not modelled.
  */
  datatype ChannelCall = ChannelCall(input: Plane, matrix: Mat2, offset: Vec2,
                                     order: nat, mode: FillMode, cval: real)

  /** The result of `apply_transform`: its shape and the per-channel calls that produce its pixels. */
  datatype Resampled = Resampled(shape: seq<nat>, calls: seq<ChannelCall>)

  /**
    `apply_transform(x, transform, fill_mode, fill_value)`: centre the matrix
    on the two spatial sizes, then resample every channel with order 0 and the
    same linear part and offset. The output keeps the input's shape (with the
    restore step as intended). An image without channels leaves nothing to
    stack, and `np.stack` raises ValueError.
  */
  function ApplyTransform(img: Image, m: Mat3, fill: Fill): (r: Result<Resampled>)
    ensures r.Failure? <==> |img.channels| == 0
    ensures r.Failure? ==> r.error == StackError
    ensures r.Success? ==> r.value.shape == Shape(img) && |r.value.calls| == |img.channels|
    ensures r.Success? ==> forall i :: 0 <= i < |r.value.calls| ==>
              r.value.calls[i].input == img.channels[i] && r.value.calls[i].order == 0 &&
              r.value.calls[i].mode == fill.mode && r.value.calls[i].cval == fill.value
    ensures r.Success? && IsAffine(m) ==> forall i :: 0 <= i < |r.value.calls| ==>
              r.value.calls[i].matrix == Linear(m) &&
              r.value.calls[i].offset == Add(Sub(Center(img.height, img.width),
                                                 Apply2(Linear(m), Center(img.height, img.width))), Offset(m))
  {
    if |img.channels| == 0 then Failure(StackError)
    else
      var rolled := ChannelsFirst(Shape(img));
      assert rolled == [|img.channels|, img.height, img.width];
      var centered := OffsetCenter(m, rolled[1], rolled[2]);
      var calls := seq(|img.channels|, i requires 0 <= i < |img.channels| =>
                         ChannelCall(img.channels[i], Linear(centered), Offset(centered),
                                     0, fill.mode, fill.value));
      RestoreRoundTrip(Shape(img));
      Success(Resampled(Restore(rolled), calls))
  }

  /** What `np.stack` raises on an empty list of channel images. */
  const StackError := ValueError("need at least one array to stack")

  /** What a transform returns: the image alone, or the image and its target. */
  datatype Output = Single(x: Resampled) | Pair(x: Resampled, y: Resampled)

  /**
    The tail of every `transform`: apply the matrix to X with the first fill,
    and, when a target y is given, the same matrix to y with the second fill.
    X is transformed first, so its error is the one raised when both fail.
  */
  function ApplyToPair(x: Image, y: Option<Image>, m: Mat3, fill: Fill, targetFill: Fill): (r: Result<Output>)
    ensures r.Failure? <==> |x.channels| == 0 || (y.Some? && |y.value.channels| == 0)
    ensures r.Failure? ==> r.error == StackError
    ensures r.Success? ==> (r.value.Single? <==> y.None?) && r.value.x == ApplyTransform(x, m, fill).value
    ensures r.Success? && y.Some? ==> r.value.y == ApplyTransform(y.value, m, targetFill).value
  {
    var xt := ApplyTransform(x, m, fill);
    if xt.Failure? then Failure(xt.error)
    else if y.None? then Success(Single(xt.value))
    else
      var yt := ApplyTransform(y.value, m, targetFill);
      if yt.Failure? then Failure(yt.error) else Success(Pair(xt.value, yt.value))
  }

  /**
    The image and its target undergo the same geometric map: when they share
    their spatial size, every channel call on either gets the same linear part
    and offset, and each keeps its own fill.
  */
  lemma PairSharesGeometry(x: Image, y: Image, m: Mat3, fill: Fill, targetFill: Fill, i: nat, j: nat)
    requires IsAffine(m)
    requires x.height == y.height && x.width == y.width
    requires i < |x.channels| && j < |y.channels|
    ensures ApplyToPair(x, Some(y), m, fill, targetFill).Success?
    ensures var r := ApplyToPair(x, Some(y), m, fill, targetFill).value;
            r.x.calls[i].matrix == r.y.calls[j].matrix &&
            r.x.calls[i].offset == r.y.calls[j].offset &&
            r.x.calls[i].mode == fill.mode && r.y.calls[j].mode == targetFill.mode &&
            r.x.calls[i].cval == fill.value && r.y.calls[j].cval == targetFill.value
  {
  }
}
