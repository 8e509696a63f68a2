# Affine image augmentation: a Dafny model

This project models the geometric core of the `code/sampling/transforms.py`
augmentation module:

- the four random builders `Rotate`, `Translate`, `Shear` and `Zoom`, each of
  which draws a sample and builds a 3x3 homogeneous matrix, returning that
  matrix when `lazy` and otherwise applying it to an image and its target;
- the composers `Affine` and `AffineCompose`, which hold lazy builders,
  multiply their matrices left to right into one matrix and apply that single
  matrix to X with one fill and to y with another;
- `transform_matrix_offset_center` (T(o)·M·T(-o) with o = (x/2 + 0.5, y/2 + 0.5))
  and `apply_transform`, which centres the matrix and hands its linear part
  and offset to a per-channel resampler;
- `Compose`, the pipeline that threads X through its sub-transforms in order
  and forwards `fit` and `_reset` to each of them;
- `ToCategorical`, the one-hot encoder whose number of classes is inferred as
  max + 1 while unset (None or 0) and then remembered.

Modules:

- `Outcomes`: `Option`, `Result`, and the Python exceptions the core raises.
- `Homogeneous`: 3x3 matrices, their product (`np.dot`) and affine structure.
- `Resampling`: centring, axis rolling, and `apply_transform` as a record of
  the per-channel resampling calls.
- `Builders`: the builder matrices, the constructors' argument checks, and the
  `Builder` class.
- `Composer`: the composition loop and the `Composer` class, which stands for
  both `Affine` and `AffineCompose`.
- `Pipeline`: the `Compose` class.
- `Categorical`: the `ToCategorical` class and its specification.

The random draws (`random.uniform`) and the values of `math.sin` and
`math.cos` become parameters: a `Sample` holds the draw and the sine and
cosine it produced. The predicates `InUniform` and `SinCos` state what is
known about them: the draw lies between the bounds, and sin² + cos² = 1 with
sin 0 = 0 and cos 0 = 1. scipy's `affine_transform` becomes a `ChannelCall`
value that records the arguments it is given.

Where the docstrings and the code disagree, the model follows the code:

- `Zoom` checks only that its range is a list or tuple. A range with fewer
  than two items raises IndexError when `transform` runs, not at
  construction.
- `Affine` with no truthy range builds an empty list. Its `transform` then
  raises IndexError on `self.transforms[0]`.
- Ranges are added when they are truthy, so a zero rotation or shear range
  adds no stage.
- A negative translation range gives a zero shift on that axis.
- The centring pivot (x/2 + 0.5, y/2 + 0.5) is one pixel past the middle ((x - 1)/2, (y - 1)/2) of the 0-based pixel indices the resampler works on, so every centred rotation, shear and zoom turns about a point one pixel off the middle on each axis. The model keeps the pivot as written.
- Neither the fill modes nor the image shapes are validated.

## Model

| member | source | states |
|---|---|---|
| Homogeneous.Translation | code/sampling/transforms.py:74-75 | the translation matrix is affine, with the identity as its linear part and (tx, ty) as its offset |
| Homogeneous.Embed | code/sampling/transforms.py:83-84 | a linear block and an offset make an affine matrix from which `[:2, :2]` and `[:2, 2]` read them back |
| Homogeneous.AffineDecomposes | code/sampling/transforms.py:83-84 | an affine matrix is determined by its `[:2, :2]` block and `[:2, 2]` column, so handing only those to the resampler loses nothing; it is its offset translation after its linear part |
| Homogeneous.Mul | code/sampling/transforms.py:76 | the `np.dot` of two affine matrices is affine |
| Homogeneous.MulAffine | code/sampling/transforms.py:172 | the product of two affine matrices is affine, its linear part is the product of the linear parts, and its offset is A_a·b_b + b_a |
| Homogeneous.MulAssociative | code/sampling/transforms.py:171-172 | `np.dot` on 3x3 matrices is associative, so the left-to-right product is the ordered product whatever the grouping |
| Homogeneous.ApplyMul | code/sampling/transforms.py:228 | applying a product to a point applies the right factor first, then the left one |
| Homogeneous.TranslationsCompose | code/sampling/transforms.py:74-76 | two translations compose into the translation by the summed offsets |
| Resampling.Center | code/sampling/transforms.py:72-73 | each centre coordinate lies halfway between 1 and the extent on its axis |
| Resampling.OffsetCenter | code/sampling/transforms.py:71-77 | for an affine matrix the centred matrix is affine, keeps the linear part, and has offset o - A·o + b |
| Resampling.CenterRoundTrip | code/sampling/transforms.py:71-77 | centring and uncentring are inverse to each other for every matrix |
| Resampling.CenterDistributes | code/sampling/transforms.py:71-77 | centring a product is the product of the centred factors |
| Resampling.CenterIdentity | code/sampling/transforms.py:71-77 | the identity stays the identity when centred |
| Resampling.CenterIsFixed | code/sampling/transforms.py:71-77 | a centred map whose own offset is zero keeps the pivot (x/2 + 0.5, y/2 + 0.5) where it is; that pivot is one pixel past the middle of the 0-based pixel indices on each axis |
| Resampling.RollAxis | code/sampling/transforms.py:80 | `rollaxis` keeps the rank, puts the moved axis at its landing position, and leaves the other axes in their order |
| Resampling.ChannelsFirst | code/sampling/transforms.py:80 | the last axis, the channels, moves to the front and the others follow in order |
| Resampling.RestoreAsWritten | code/sampling/transforms.py:89 | the restore roll as written, with `channel_axis` -1, returns the shape unchanged |
| Resampling.Restore | code/sampling/transforms.py:89 | the intended restore moves the front axis to the end |
| Resampling.RestoreAsWrittenKeepsChannelsFirst | code/sampling/transforms.py:80-89 | the restore roll as written moves nothing, so the output stays channels-first and differs from the input shape when channels differ from height |
| Resampling.RestoreRoundTrip | code/sampling/transforms.py:80-89 | rolling the front axis back to the end undoes the roll of the last axis to the front, at every rank |
| Resampling.ApplyTransform | code/sampling/transforms.py:79-90 | fails exactly when the image has no channels, with the ValueError of `np.stack`; otherwise the output has the input's shape (with the restore step as intended), with one resampling call per channel on that channel; each call uses order 0, the fill mode and value, the centred linear part, and the offset o - A·o + b |
| Resampling.ApplyToPair | code/sampling/transforms.py:174-184 | fails exactly when X, or the given y, has no channels, with ValueError; otherwise the output is a pair exactly when y is given, X transformed with the image fill and y with the target fill |
| Resampling.PairSharesGeometry | code/sampling/transforms.py:230-240 | for X and y with channels and the same spatial size the pair transform succeeds, and every channel of either gets the same linear part and offset, each with its own fill |
| Builders.RotationMatrix | code/sampling/transforms.py:280-282 | the rotation matrix is affine with zero offset, so it fixes the origin |
| Builders.ShearMatrix | code/sampling/transforms.py:408-410 | the shear matrix is affine with zero offset, so it fixes the origin |
| Builders.ZoomMatrix | code/sampling/transforms.py:470-472 | the zoom matrix is affine with zero offset, so it fixes the origin |
| Builders.Shift | code/sampling/transforms.py:345-353 | a non-positive range shifts by exactly 0; a draw within a positive range shifts by at most the range times the extent |
| Builders.BuildMatrix | code/sampling/transforms.py:277-282 | building fails exactly for a Zoom whose range has fewer than two items, with IndexError; every built matrix is affine |
| Builders.RotationIsOrthonormal | code/sampling/transforms.py:280-282 | Rotate builds the rotation matrix of its drawn sine and cosine; its linear part is orthonormal with determinant 1, and the rotation by -θ undoes it |
| Builders.RotationsCompose | code/sampling/transforms.py:280-282 | two rotations compose into the rotation whose sine and cosine follow the angle-sum formulas |
| Builders.ShearDeterminant | code/sampling/transforms.py:406-410 | Shear builds the shear matrix of its draw; it keeps the first axis and its linear part has determinant cos(shear) |
| Builders.TranslateShiftBounded | code/sampling/transforms.py:343-357 | the translation has the identity as linear part; a non-positive range gives shift 0 on its axis, and a positive one a shift within ±range·extent |
| Builders.ZoomScalesWithinRange | code/sampling/transforms.py:467-472 | a zoom scales each axis by its own draw, each between the two ends of the range |
| Builders.ZoomsCompose | code/sampling/transforms.py:467-472 | zooms multiply axis by axis and commute |
| Builders.NeutralBuildsIdentity | code/sampling/transforms.py:277-282 | zero rotation, shear and translation ranges, and the zoom range (1, 1), build the identity |
| Builders.TranslateConfigOf | code/sampling/transforms.py:333-336 | a float is used for both axes; an int raises TypeError; a sequence needs two items, the height range and the width range, and otherwise raises |
| Builders.ZoomConfigOf | code/sampling/transforms.py:458-459 | anything but a list or tuple raises ValueError; any list or tuple is kept as given |
| Builders.ZoomChecksOnlyTheType | code/sampling/transforms.py:458-459 | an empty list and a reversed range both pass the constructor, and a float does not |
| Builders.Builder.Rotate | code/sampling/transforms.py:245-275 | a fresh rotate builder with the given range, fills and lazy flag |
| Builders.Builder.Translate | code/sampling/transforms.py:300-341 | fails exactly when the range is malformed, with that error; otherwise a fresh builder with the parsed ranges |
| Builders.Builder.Shear | code/sampling/transforms.py:375-404 | a fresh shear builder with the given range, fills and lazy flag |
| Builders.Builder.Zoom | code/sampling/transforms.py:429-465 | fails exactly when the range is not a list or tuple, with ValueError; otherwise a fresh builder keeping the range |
| Builders.Builder.Transform | code/sampling/transforms.py:343-370 | a short zoom range raises its IndexError; a lazy builder returns the built matrix; any other builder returns the image (and target) transformed by it with its fills, or the error of that transform |
| Composer.ComposedMatrix | code/sampling/transforms.py:170-172 | the composition fails exactly on an empty list or a failing builder, with IndexError; one builder gives its own matrix; the result is affine |
| Composer.ComposedMatrixFactors | code/sampling/transforms.py:170-172 | the composed matrix is the first builder's matrix times the composition of the rest, so it is the ordered product M0·M1·…·Mk |
| Composer.NeutralComposesToIdentity | code/sampling/transforms.py:226-228 | builders with neutral ranges compose to the identity |
| Composer.AffineStagesInOrder | code/sampling/transforms.py:146-161 | Affine's stages come in the order rotate, translate, shear, zoom, and a kind is present exactly when its range is truthy |
| Composer.AffineStagesCarryTheirRanges | code/sampling/transforms.py:146-161 | each stage holds the range given for it (a float translation on both axes) |
| Composer.AffineWithoutRangesCannotTransform | code/sampling/transforms.py:146-170 | with no truthy range Affine builds no stage, and composing no stage fails |
| Composer.Composer.Affine | code/sampling/transforms.py:95-166 | fails exactly when the translation or zoom constructor raises, with its error; otherwise a fresh composer whose lazy builders are the ordered stages, with the given fills; every builder it holds was created by the call itself |
| Composer.Composer.AddRotate | code/sampling/transforms.py:147-149 | appends the lazy rotate stage exactly when the range is truthy; the builders already held stay first and unchanged, and any added one is new |
| Composer.Composer.AddTranslate | code/sampling/transforms.py:151-153 | appends the lazy translate stage when the range is truthy, and returns the constructor's error if it raises; the builders already held stay first and unchanged, and any added one is new |
| Composer.Composer.AddShear | code/sampling/transforms.py:155-157 | appends the lazy shear stage exactly when the range is truthy; the builders already held stay first and unchanged, and any added one is new |
| Composer.Composer.AddZoom | code/sampling/transforms.py:159-161 | appends the lazy zoom stage when the range is truthy, and returns the constructor's error if it raises; the builders already held stay first and unchanged, and any added one is new |
| Composer.Composer.AffineCompose | code/sampling/transforms.py:215-222 | keeps the given builders in order and makes every one of them lazy |
| Composer.Composer.Transform | code/sampling/transforms.py:224-240 | raises the composition's error when the ordered composition fails; otherwise returns the pair transform of that one matrix with the composer's fills, including its error on an image without channels |
| Composer.ComposedMatrixAsWritten | code/sampling/transforms.py:170 | the call `self.transforms[0](X)` as written never yields a matrix, raising TypeError on any non-empty list |
| Composer.AsWrittenNeverComposes | code/sampling/transforms.py:226 | for a single Rotate(10) with a zero draw, the call as written fails while the intended composition gives the identity |
| Pipeline.Run | code/sampling/transforms.py:23-26 | the run keeps one state per sub-transform, and an empty pipeline returns X unchanged |
| Pipeline.RunAppend | code/sampling/transforms.py:23-26 | running ts1 + ts2 runs ts1, then ts2 on its output, unless ts1 raised |
| Pipeline.RunSingle | code/sampling/transforms.py:23-26 | a one-element pipeline behaves as its sub-transform |
| Pipeline.RunTwo | code/sampling/transforms.py:23-26 | a two-element pipeline returns t2(t1(X)), and when t1 raises, t2 is not run |
| Pipeline.RunStopsAtFailure | code/sampling/transforms.py:23-26 | after an exception the rest of the pipeline is neither run nor changed |
| Pipeline.ForwardAll | code/sampling/transforms.py:15-21 | forwarding `fit` or `_reset` succeeds exactly when no sub-transform raises, and then each sub-transform is left as its own call left it |
| Pipeline.Compose.Forward | code/sampling/transforms.py:15-26 | the loop's result and the sub-transforms' new states are those of the in-order run, stopping at the first exception |
| Pipeline.Compose.Transform | code/sampling/transforms.py:23-26 | the result and the sub-transforms' new states are those of the in-order run on X alone, whatever y is |
| Pipeline.Compose.Fit | code/sampling/transforms.py:19-21 | the sub-transforms are fitted in order on the same X and y, up to the first that raises, whose error is returned; the rest are left untouched |
| Pipeline.Compose.Reset | code/sampling/transforms.py:15-17 | the sub-transforms are reset in order, up to the first that raises, whose error is returned; the rest are left untouched |
| Categorical.Max | code/sampling/transforms.py:55 | the maximum bounds every label and is one of them |
| Categorical.EncodeIsOneHot | code/sampling/transforms.py:56-59 | a successful encoding has one row per label and k columns, with a single 1 in each row at the column the label selects |
| Categorical.Classes | code/sampling/transforms.py:54-55 | fails exactly with no labels while unset; a set number is used as is, and an inferred one is the least number above every label |
| Categorical.Remembered | code/sampling/transforms.py:54-55 | a set number is kept, and a later call on the same labels uses the same number of classes |
| Categorical.Encode | code/sampling/transforms.py:53-58 | encoding fails exactly on no labels while unset, on a negative number of classes, or on a label out of range; a success has one row per label |
| Categorical.DecodeEncode | code/sampling/transforms.py:56-59 | reading each row's 1 back gives the selected columns, and gives the labels themselves when they are non-negative |
| Categorical.InferredClassesFit | code/sampling/transforms.py:54-55 | with the number of classes unset, non-negative labels always encode, into max + 1 columns, and max + 1 is remembered |
| Categorical.InferenceIsRemembered | code/sampling/transforms.py:54-58 | after labels [0, 1] two classes are remembered, so a later label 2 raises IndexError, which it would not while unset |
| Categorical.ZeroIsInferredAgain | code/sampling/transforms.py:54-55 | a stored 0 counts as unset and is inferred again |
| Categorical.ToCategorical.Transform | code/sampling/transforms.py:52-59 | remembers the inferred number of classes even when the call then raises; fails exactly when the encoding fails, with its error; otherwise returns a fresh n x num_classes matrix whose rows are the one-hot encoding |

## Left out

- The resampling itself (scipy's `affine_transform`) is foreign code. A call is recorded as a `ChannelCall` with the plane, matrix, offset, order, mode and fill value it receives, and the resampled pixel values are not modelled.
- The `float32` cast in `apply_transform` and the float dtype of every output are left out, because reals stand in for floating point.
- `math.sin` and `math.cos` and the degree-to-radian conversion are parameters of a `Sample`. Only sin² + cos² = 1 and the values at 0 are assumed of them, because real trigonometry is not available.
- The random draws are parameters of a `Sample`, constrained to lie between the bounds, because randomness is not modelled.
- `LambdaTransform`, `ExpandDims` and `TypeCast` are thin wrappers around a user function and numpy calls. Each is a sub-transform that `Pipeline.Compose` can hold as a `step`, and none is modelled on its own.
- Only 3-D images (height x width x channels) with the default `channel_axis` of -1 are modelled, because `apply_transform` only works on those. A 2-D image raises IndexError at line 82 on `x.shape[2]`, and for a higher rank scipy rejects the 2x2 matrix for a channel of more than two axes. `RollAxis` itself is general, and `Resampling.RestoreRoundTrip` holds at every rank.
- Fill modes other than constant and nearest are left out. The module documents only those two, and the mode is passed through unchecked.
- Pipeline.Compose: sub-transforms are values, so one object appearing twice in the list is not modelled. The constructor copies the list, whereas the source keeps the caller's own list, so sub-transforms the caller adds to that list later are not run.
- Pipeline.Compose.Fit, Pipeline.Compose.Reset: `fit` and `_reset` are parameters, because no class in the module other than `Compose` defines them. If the first sub-transform is of any other class of the module, the call raises AttributeError, and the model allows that as a failing step. A nested `Compose` passes the call on to its own sub-transforms, which a parameter also covers.
- Composer.Composer.AffineCompose: it copies the caller's list. The source keeps the caller's own list, so a builder the caller appends afterwards would be composed too, and that builder was never made lazy.
- Resampling.ApplyTransform: it restores the channel axis as intended, to the last position, so its output has the input's shape. As written, line 89 returns channels x height x width (see Findings). `Resampling.RestoreAsWritten` models the line as written.
- Composer.Composer.Affine: it does not state that the builders it creates carry the default fills. Those fills are never used, because the builders are lazy.
- Composer.Composer.Affine: it sets the fills before appending the stages, whereas the source sets them afterwards. Nothing can observe the difference.
- Composer.Composer.Transform: it models the builder call as intended, `transform(X)`, rather than the uncallable call as written (see Findings).
- Categorical.ToCategorical.Transform: it takes the labels already flattened to integers, so the `int` cast and `ravel` of arbitrary input are left out.
- Builders.Builder.Transform: the image a non-lazy builder returns is a `Resampled` record, with the limits of `ApplyTransform`.

## Findings

| source | as written | input that shows it | evidently intended | confidence | as-written member | corrected member |
|---|---|---|---|---|---|---|
| code/sampling/transforms.py:170 and :226 | `self.transforms[0](X)` and `tform(X)` call the builder object itself, and no builder defines `__call__`, so the call raises TypeError | `AffineCompose([Rotate(10)]).transform(X)` for any image X | `self.transforms[0].transform(X)`, composing the lazily returned matrices | not executed | Composer.ComposedMatrixAsWritten, Composer.AsWrittenNeverComposes | Composer.ComposedMatrix |
| code/sampling/transforms.py:89 | `np.rollaxis(x, 0, channel_axis+1)` with the default `channel_axis=-1` is `rollaxis(x, 0, 0)`, which moves nothing, so the output stays channels-first | a 32x32x3 image comes back with shape 3x32x32 | roll the front axis back to the last position, restoring height x width x channels | not executed | Resampling.RestoreAsWritten, Resampling.RestoreAsWrittenKeepsChannelsFirst | Resampling.Restore, Resampling.RestoreRoundTrip, Resampling.ApplyTransform |
