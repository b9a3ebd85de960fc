# Dlib face recognition for Android, modelled in Dafny

This project models the parts of the `facerecognition.dlib` Android library that can be
stated exactly. The library is a thin Kotlin/JNI shell around dlib's landmark predictor and
an ONNX embedding network. The modelled parts are:

- **`FaceRecognitionDlib`**, the engine facade (`recognition_engine.dfy`):
  - the lifecycle of its native context, open from construction until `close()`;
  - template creation, one native extraction per face;
  - template comparison by `1 - d²/4`, clamped twice.
- **`FaceTemplateDlib`** (`face_template.dfy`): equality by content and the content hash.
  Both work on float bit patterns, as `java.util.Arrays` does.
- **`DlibLandmarks`**, the Kotlin wrapper (`landmarks_wrapper.dfy`): the same open/closed
  lifecycle around the native aligner.
- **The native `DlibLandmarks::createAlignedFace`** (`aligned_face.dfy`):
  - the error checks before any pixel is read;
  - the pixel copy loop, with its word unpacking and alpha un-premultiplication;
  - rectangle clamping and validation;
  - the five-landmark check;
  - the row-major interleaved RGB packing of the chip;
  - the `PixelsLock` guard.
- **The native `FaceRecognition` object** (`native_template.dfy`):
  - the `FinalAction` scope guard;
  - the output-length check against the 128-entry mean vector;
  - centring, and then scaling by `1/norm` or zeroing;
  - the name lists rebuilt by `loadModelIO`;
  - the outcomes of the JNI entry point `createFaceTemplateFromBitmap`.
- **`InputStream.hash`** from the instrumented tests (`fnv_hash.dfy`): 64-bit FNV-1a over a
  stream read in buffer-sized pieces, printed as 16 hex digits.

The two Kotlin wrappers share some definitions, kept in `native_bridge.dfy`:

- the requests they send across JNI;
- the fixed chip parameters, size 150 and padding 0.25;
- a ghost log of native calls, which states their lifecycle.

`common.dfy` holds the `Result` and `Error` types and the squared norm.

Some things are parameters of the model:

- what the native layer computes (dlib's predictor and chip extraction, the ONNX `Run`);
- `sqrt`;
- what the Android platform reports about a bitmap.

Float arithmetic is modelled over `real`. The exception is template data inside
`FaceTemplateDlib`, which is kept as 32-bit patterns.

## Model

| member | source | states |
|---|---|---|
| RecognitionEngine.FaceRecognitionDlib.constructor | lib/src/main/java/com/appliedrec/facerecognition/dlib/FaceRecognitionDlib.kt:49-53 | the context is created once from the two model paths, and the engine starts open |
| RecognitionEngine.FaceRecognitionDlib.CreateFaceRecognitionTemplates | lib/src/main/java/com/appliedrec/facerecognition/dlib/FaceRecognitionDlib.kt:55-72 | once closed: `IllegalStateException("Library closed")` and no native call; while open: the templates of the faces, made through the construction-time context, with the native calls logged in order |
| RecognitionEngine.CreateTemplatesOnePerFace | lib/src/main/java/com/appliedrec/facerecognition/dlib/FaceRecognitionDlib.kt:60-70 | creation succeeds iff every face's extraction does; it gives one template per face, in order, each wrapping its face's data; a failure is the first face's error; the i-th native call carries face i's rounded bounds left, top, right, bottom with size 150 and padding 0.25 |
| RecognitionEngine.TemplatesCarryEngineVersion | lib/src/main/java/com/appliedrec/facerecognition/dlib/FaceRecognitionDlib.kt:45 | every template created is of the version the engine advertises, V16 |
| RecognitionEngine.RoundHalfUp | lib/src/main/java/com/appliedrec/facerecognition/dlib/FaceRecognitionDlib.kt:61-62 | each bound is rounded to the nearest integer, halves up |
| RecognitionEngine.RoundRect | lib/src/main/java/com/appliedrec/facerecognition/dlib/FaceRecognitionDlib.kt:61-62 | each side of `face.bounds.round(rect)` lies within half a unit of the sub-pixel side, halves going up |
| RecognitionEngine.CreateTemplatesSpec | lib/src/main/java/com/appliedrec/facerecognition/dlib/FaceRecognitionDlib.kt:59-71 | the `map` over the faces: the templates in order, or the first face's exception; a success has one template per face |
| RecognitionEngine.FaceRecognitionDlib.CompareFaceRecognitionTemplates | lib/src/main/java/com/appliedrec/facerecognition/dlib/FaceRecognitionDlib.kt:74-100 | the accumulator loops compute exactly `CompareSpec`; the method reads no engine state, so it behaves the same before and after `close()` |
| RecognitionEngine.SquaredNorm | lib/src/main/java/com/appliedrec/facerecognition/dlib/FaceRecognitionDlib.kt:79-80 | the accumulator loop computes the squared norm of its vector (also used for `x2`, lines 88-89) |
| RecognitionEngine.DotProduct | lib/src/main/java/com/appliedrec/facerecognition/dlib/FaceRecognitionDlib.kt:84-85 | over the query's indices: the dot product when the candidate is at least as long, and otherwise the out-of-bounds read at the candidate's length |
| RecognitionEngine.CompareOnePerCandidate | lib/src/main/java/com/appliedrec/facerecognition/dlib/FaceRecognitionDlib.kt:82-99 | comparison succeeds iff no candidate is shorter than the query; it then gives one score per candidate, the i-th score belonging to the i-th candidate and lying in [0, 1]; otherwise the error is the out-of-bounds index of the first short candidate |
| RecognitionEngine.CompareFailurePersists | lib/src/main/java/com/appliedrec/facerecognition/dlib/FaceRecognitionDlib.kt:82-85 | a failure among the first candidates is the failure of the whole `map`; no partial result is returned |
| RecognitionEngine.Dot | lib/src/main/java/com/appliedrec/facerecognition/dlib/FaceRecognitionDlib.kt:84-85 | definition only, no contract: `dot += q[i] * x[i]` summed over the query's indices, the independent reference `DotProduct` is proved against |
| RecognitionEngine.Score | lib/src/main/java/com/appliedrec/facerecognition/dlib/FaceRecognitionDlib.kt:91-98 | the score from `q2`, `x2` and `dot` always lies in [0, 1] |
| RecognitionEngine.CandidateScore | lib/src/main/java/com/appliedrec/facerecognition/dlib/FaceRecognitionDlib.kt:83-98 | one candidate's score fails exactly when the candidate is shorter than the query, and otherwise lies in [0, 1] |
| RecognitionEngine.CompareSpec | lib/src/main/java/com/appliedrec/facerecognition/dlib/FaceRecognitionDlib.kt:82-99 | the `map` over the candidates: the scores in order, or the first candidate's failure; a success has one score per candidate |
| RecognitionEngine.ScoreBounds | lib/src/main/java/com/appliedrec/facerecognition/dlib/FaceRecognitionDlib.kt:92-98 | clamping `d²` at 0 already keeps `s <= 1`; after `coerceIn(0, 1)` the score lies in [0, 1] |
| RecognitionEngine.CoerceIn | lib/src/main/java/com/appliedrec/facerecognition/dlib/FaceRecognitionDlib.kt:98 | the result lies in [lo, hi], and a value already in range is unchanged |
| RecognitionEngine.DistanceIsSquaredNorm | lib/src/main/java/com/appliedrec/facerecognition/dlib/FaceRecognitionDlib.kt:91-92 | over the reals, `q2 + x2 - 2 dot` is the squared distance `‖q - x‖²`, so it is never negative |
| RecognitionEngine.ExpandSquare | lib/src/main/java/com/appliedrec/facerecognition/dlib/FaceRecognitionDlib.kt:78-92 | `‖q‖² + ‖x‖² ∓ 2 q·x == ‖q ∓ x‖²` over the accumulated sums |
| RecognitionEngine.SelfScoreIsOne | lib/src/main/java/com/appliedrec/facerecognition/dlib/FaceRecognitionDlib.kt:78-99 | a template compared with itself scores 1 |
| RecognitionEngine.UnitNormScoreIsRescaledCosine | lib/src/main/java/com/appliedrec/facerecognition/dlib/FaceRecognitionDlib.kt:94-98 | for unit-norm vectors the score is `(q·x + 1) / 2`, the cosine mapped to [0, 1] |
| RecognitionEngine.FaceRecognitionDlib.Close | lib/src/main/java/com/appliedrec/facerecognition/dlib/FaceRecognitionDlib.kt:102-106 | the context is destroyed if there still is one, and is null afterwards; a second close makes no native call |
| RecognitionEngine.UseAfterClose | lib/src/main/java/com/appliedrec/facerecognition/dlib/FaceRecognitionDlib.kt:51-106 | an engine that creates templates, is closed twice and is used again: creation then fails with `Library closed`, comparison gives the same scores open and closed, and the context was destroyed exactly once |
| NativeBridge.RequestFor | lib/src/main/java/com/appliedrec/facerecognition/dlib/FaceRecognitionDlib.kt:63-67 | the request carries the context, the bitmap, the rectangle's sides in the order left, top, right, bottom, size 150 and padding 0.25 |
| NativeBridge.DestroyedAtMostOnce | lib/src/main/java/com/appliedrec/facerecognition/dlib/FaceRecognitionDlib.kt:102-106 | over any history a wrapper can produce, the context is destroyed at most once, and exactly once if the wrapper is closed |
| LandmarksWrapper.DlibLandmarks.constructor | lib/src/main/java/com/appliedrec/facerecognition/dlib/DlibLandmarks.kt:9-13 | the context is created once, at construction, from the model path |
| LandmarksWrapper.DlibLandmarks.CreateAlignedFace | lib/src/main/java/com/appliedrec/facerecognition/dlib/DlibLandmarks.kt:15-19 | once closed: `IllegalStateException("Library closed")` and no native call; while open: exactly one native call, on the construction-time context, with the sides left, top, right, bottom, size 150 and padding 0.25, returning what it returns |
| LandmarksWrapper.DlibLandmarks.Close | lib/src/main/java/com/appliedrec/facerecognition/dlib/DlibLandmarks.kt:33-37 | the context is destroyed if there still is one, and is null afterwards |
| LandmarksWrapper.CloseTwice | lib/src/main/java/com/appliedrec/facerecognition/dlib/DlibLandmarks.kt:9-37 | a wrapper that is used, closed twice and used again: the first chip comes from the native aligner, the later call fails with `Library closed`, and the context was destroyed exactly once |
| FaceTemplates.MakeDlibTemplate | lib/src/main/java/com/appliedrec/facerecognition/dlib/FaceTemplateDlib.kt:5-7 | the version of a `FaceTemplateDlib` is always V16, and the data is the data given |
| FaceTemplates.FloatToIntBits | lib/src/main/java/com/appliedrec/facerecognition/dlib/FaceTemplateDlib.kt:9 | the element comparison of `contentEquals` maps every NaN to the canonical NaN and keeps every other bit pattern |
| FaceTemplates.Equals | lib/src/main/java/com/appliedrec/facerecognition/dlib/FaceTemplateDlib.kt:8-10 | `equals` holds only for another `FaceTemplateDlib` whose data has the same length; the lemmas below give the rest |
| FaceTemplates.ContentHashCode | lib/src/main/java/com/appliedrec/facerecognition/dlib/FaceTemplateDlib.kt:13 | definition only, no contract: `contentHashCode` as the `31 * h + floatToIntBits(e)` fold from 1 in wrapping 32-bit arithmetic; `ContentHashCodeRespectsEquals` states its property |
| FaceTemplates.HashCode | lib/src/main/java/com/appliedrec/facerecognition/dlib/FaceTemplateDlib.kt:12-14 | definition only, no contract: `31 * version.hashCode() + data.contentHashCode()`, wrapping; `HashCodeRespectsEquals` states its property |
| FaceTemplates.EqualsReflexive | lib/src/main/java/com/appliedrec/facerecognition/dlib/FaceTemplateDlib.kt:8-10 | every template equals itself |
| FaceTemplates.EqualsSymmetric | lib/src/main/java/com/appliedrec/facerecognition/dlib/FaceTemplateDlib.kt:8-10 | `a == b` iff `b == a` |
| FaceTemplates.EqualsTransitive | lib/src/main/java/com/appliedrec/facerecognition/dlib/FaceTemplateDlib.kt:8-10 | equality is transitive |
| FaceTemplates.EqualsOnlyDlibTemplates | lib/src/main/java/com/appliedrec/facerecognition/dlib/FaceTemplateDlib.kt:9 | null, and objects of other classes, are never equal, whatever data they hold |
| FaceTemplates.EqualsByContent | lib/src/main/java/com/appliedrec/facerecognition/dlib/FaceTemplateDlib.kt:9 | two templates built from equal data are equal, whatever their identity |
| FaceTemplates.DifferentLengthsUnequal | lib/src/main/java/com/appliedrec/facerecognition/dlib/FaceTemplateDlib.kt:9 | data of different lengths makes templates unequal |
| FaceTemplates.DifferentElementUnequal | lib/src/main/java/com/appliedrec/facerecognition/dlib/FaceTemplateDlib.kt:9 | one differing element makes templates unequal, unless both elements are NaNs |
| FaceTemplates.BitSemanticsOfEquality | lib/src/main/java/com/appliedrec/facerecognition/dlib/FaceTemplateDlib.kt:9 | +0.0 and -0.0 give unequal templates; NaNs with different payloads give equal ones |
| FaceTemplates.ContentHashCodeRespectsEquals | lib/src/main/java/com/appliedrec/facerecognition/dlib/FaceTemplateDlib.kt:9-13 | content-equal arrays have equal `contentHashCode`s |
| FaceTemplates.HashCodeRespectsEquals | lib/src/main/java/com/appliedrec/facerecognition/dlib/FaceTemplateDlib.kt:5-14 | equal templates have equal `hashCode = 31 * version.hashCode() + data.contentHashCode()`, in wrapping 32-bit arithmetic |
| AlignedFace.RoundHalfAway | lib/src/main/cpp/DlibLandmarks.cpp:25 | `llround` is within 0.5 of its argument, keeps integers, and keeps non-negative values non-negative |
| AlignedFace.ClampLong | lib/src/main/cpp/DlibLandmarks.cpp:22-26 | for `lo <= hi` the result lies in [lo, hi]; an integer already in range comes back unchanged; a value at or below `lo` gives `lo`, one at or above `hi` gives `hi`; for `hi < lo` the result is `hi`; on integers it is the integer clamp `min(max(v, lo), hi)` |
| AlignedFace.ClampLongMonotone | lib/src/main/cpp/DlibLandmarks.cpp:22-26 | clamping keeps order |
| AlignedFace.UnpackPackRoundTrip | lib/src/main/cpp/DlibLandmarks.cpp:93-97 | the four shifts split a word into fields that pack back into the same word, and the reverse |
| AlignedFace.Unpack | lib/src/main/cpp/DlibLandmarks.cpp:93-97 | the four shift-and-mask fields as written lose nothing: packing them back in the same layout gives the word |
| AlignedFace.AsWrittenSwapsRedAndBlue | lib/src/main/cpp/DlibLandmarks.cpp:91-97 | on the little-endian word of an RGBA_8888 pixel, the shifts as written read red from the B byte and blue from the R byte |
| AlignedFace.OpaqueRedReadsAsBlue | lib/src/main/cpp/DlibLandmarks.cpp:91-97 | an opaque red pixel is read with r = 0 and b = 255 |
| AlignedFace.MemoryOrderReadsOwnBytes | lib/src/main/cpp/DlibLandmarks.cpp:91-97 | the corrected unpack takes every channel from its own byte |
| AlignedFace.StoredPixelLoadsBack | lib/src/main/cpp/DlibLandmarks.cpp:91-97 | an RGBA_8888 pixel stored in memory is read back unchanged by the corrected unpack |
| AlignedFace.Unpremultiply | lib/src/main/cpp/DlibLandmarks.cpp:99-103 | a channel is unchanged when alpha is 0 or 255 |
| AlignedFace.UnpremultiplyRounds | lib/src/main/cpp/DlibLandmarks.cpp:99-103 | for `c <= a`, the channel is `255c/a` rounded to the nearest integer, so it never exceeds 255 |
| AlignedFace.UnpremultiplyIsQuotient | lib/src/main/cpp/DlibLandmarks.cpp:100-102 | for `c <= a`, narrowing to `uint8_t` cuts nothing off |
| AlignedFace.UnpremultiplySaturated | lib/src/main/cpp/DlibLandmarks.cpp:99-103 | a channel equal to its alpha becomes 255 |
| AlignedFace.UnpremultiplyWrapsOnInvalidInput | lib/src/main/cpp/DlibLandmarks.cpp:100-102 | a channel above its alpha wraps when narrowed: c = 255 with a = 128 gives 252 |
| AlignedFace.ConvertPixel | lib/src/main/cpp/DlibLandmarks.cpp:93-104 | a pixel with alpha 0 or 255 keeps the channels the shifts read |
| AlignedFace.PixelInBounds | lib/src/main/cpp/DlibLandmarks.cpp:90-93 | every word `(y, x)` with `y < height` and `x < width` lies inside the locked memory at byte offset `y * stride + 4x` |
| AlignedFace.ImageOf | lib/src/main/cpp/DlibLandmarks.cpp:88-106 | the copied image has `height` rows of `width` pixels each |
| AlignedFace.CopyPixels | lib/src/main/cpp/DlibLandmarks.cpp:88-106 | the image has `height` rows of `width` pixels, and pixel `(y, x)` is the converted word at byte offset `y * stride + 4x` |
| AlignedFace.FaceBounds | lib/src/main/cpp/DlibLandmarks.cpp:110-117 | with L, T, R, B the sides clamped into `[0, width - 1]` and `[0, height - 1]`: the rectangle passes iff `L < R` and `T < B`, and is then exactly `Bounds(L, T, R, B)`, with `0 <= L < R <= width - 1` and `0 <= T < B <= height - 1`; a failure is "Face rectangle out of bounds" |
| AlignedFace.WideRectangleClamped | lib/src/main/cpp/DlibLandmarks.cpp:110-117 | a rectangle reaching past both side edges is cut back to columns 0 and `width - 1`, keeping its top and bottom |
| AlignedFace.InsideRectangleKept | lib/src/main/cpp/DlibLandmarks.cpp:110-117 | a rectangle inside the image, with positive width and height, passes unchanged |
| AlignedFace.DegenerateRectangleRejected | lib/src/main/cpp/DlibLandmarks.cpp:110-117 | sides out of order, or an image narrower or lower than 2 pixels, is always rejected |
| AlignedFace.OutsideRectangleRejected | lib/src/main/cpp/DlibLandmarks.cpp:110-117 | a rectangle wholly left of or above the image is rejected |
| AlignedFace.ChannelValue | lib/src/main/cpp/DlibLandmarks.cpp:144-146 | each channel divided by 255 lies in [0, 1] |
| AlignedFace.ChipIndex | lib/src/main/cpp/DlibLandmarks.cpp:138-149 | slot `(y*size + x)*3 + k` lies inside the `size*size*3` buffer |
| AlignedFace.ChipIndexOnto | lib/src/main/cpp/DlibLandmarks.cpp:138-149 | every slot of the buffer belongs to some pixel and channel |
| AlignedFace.ChipIndexInjective | lib/src/main/cpp/DlibLandmarks.cpp:138-149 | the slot gives back its pixel and channel, so no two channels share a slot |
| AlignedFace.Packed | lib/src/main/cpp/DlibLandmarks.cpp:137-149 | the buffer has `size*size*3` entries; slot `(y*size + x)*3 + k` holds channel k (R, G, B) of chip pixel `(y, x)`; every entry lies in [0, 1] |
| AlignedFace.PackChip | lib/src/main/cpp/DlibLandmarks.cpp:138-149 | the loops with their running `idx++` fill the buffer exactly as `Packed` lays it out |
| AlignedFace.PixelsLock.Unlock | lib/src/main/cpp/DlibLandmarks.cpp:29-38 | the pixels are released only while locked, and the guard is unlocked afterwards |
| AlignedFace.CreateAlignedFace | lib/src/main/cpp/DlibLandmarks.cpp:53-150 | for every `jint` size, negative ones included, the result follows `AlignedFaceSpec`: the errors are checked in source order; `AndroidBitmap_unlockPixels` is called exactly once when predictor, bitmap, size, info, format and lock all pass, and never otherwise |
| AlignedFace.AlignedFaceSpec | lib/src/main/cpp/DlibLandmarks.cpp:53-150 | a chip comes back only when every pre-lock check passes, and it has `size * size * 3` values |
| AlignedFace.AlignLocked | lib/src/main/cpp/DlibLandmarks.cpp:87-149 | once the pixels are locked, a chip comes back only for a rectangle that survives clamping, and it has `size * size * 3` values |
| AlignedFace.SmallSizeRejected | lib/src/main/cpp/DlibLandmarks.cpp:63-65 | with a loaded predictor, any size below 2, negative sizes included, fails with "Invalid bitmap or size" |
| AlignedFace.CopyAndAlign | lib/src/main/cpp/DlibLandmarks.cpp:87-149 | copy, clamp, predict, the five-point check, extract and pack, with the first error among them |
| AlignedFace.AlignedFaceOutcome | lib/src/main/cpp/DlibLandmarks.cpp:53-150 | a chip comes back only when the lock checks pass and the rectangle is valid; it has `size*size*3` entries in [0, 1]; a rectangle that clamps to nothing fails with "Face rectangle out of bounds"; past the rectangle, a throwing predictor fails with "Predictor failed: " and its message, a shape without exactly 5 parts fails with "Predictor did not return 5 points", and 5 parts give the packed chip |
| NativeTemplate.FinalAction.Dismiss | lib/src/main/cpp/FaceRecognition.cpp:19 | `dismiss()` deactivates the guard without running the action |
| NativeTemplate.FinalAction.Destroy | lib/src/main/cpp/FaceRecognition.cpp:17 | the destructor runs the action once if the guard is active, and not at all otherwise |
| NativeTemplate.Finally | lib/src/main/cpp/FaceRecognition.cpp:26-29 | `finally(f)` gives a fresh, active guard that has not run |
| NativeTemplate.GuardedScope | lib/src/main/cpp/FaceRecognition.cpp:13-29 | at scope exit the action has run exactly once, or never if `dismiss()` was called, however often |
| NativeTemplate.MeanVectorLength | lib/src/main/cpp/FaceRecognition.cpp:99-123 | `mean_` has 128 entries |
| NativeTemplate.OutputLength | lib/src/main/cpp/FaceRecognition.cpp:63-64 | the `total *= d` loop computes the product of the output shape's dimensions |
| NativeTemplate.ShapeProductZero | lib/src/main/cpp/FaceRecognition.cpp:63-64 | the total is 0 exactly when some dimension is 0 |
| NativeTemplate.Centered | lib/src/main/cpp/FaceRecognition.cpp:73-77 | entry i of the centred output is `output[i] - mean_[i]` |
| NativeTemplate.CenterOutput | lib/src/main/cpp/FaceRecognition.cpp:70-77 | the first loop fills `templ` with the centred output and leaves `sumsq` as its squared norm |
| NativeTemplate.ScaleInPlace | lib/src/main/cpp/FaceRecognition.cpp:80-82 | every entry is multiplied in place by the same `inv` |
| NativeTemplate.ZeroInPlace | lib/src/main/cpp/FaceRecognition.cpp:83-84 | every entry is set to 0 in place |
| NativeTemplate.TemplateShape | lib/src/main/cpp/FaceRecognition.cpp:63-87 | a template exists iff the output has as many entries as `mean_`, and has that many entries itself; it is the centred output times `1/norm`, or all zeros when the norm is not positive; a wrong length is `invalid_argument` with the source's message |
| NativeTemplate.TemplateSpec | lib/src/main/cpp/FaceRecognition.cpp:57-87 | a template made from a network output has as many entries as `mean_` |
| NativeTemplate.RunTemplateSpec | lib/src/main/cpp/FaceRecognition.cpp:43-88 | an exception from `CreateTensor` or `Run` is the result unchanged; a template has as many entries as `mean_` |
| NativeTemplate.TemplateKeepsDirection | lib/src/main/cpp/FaceRecognition.cpp:79-85 | whatever the norm, any two entries of the template stand in the same ratio as those of the centred output |
| NativeTemplate.ScaledKeepsDirection | lib/src/main/cpp/FaceRecognition.cpp:80-82 | scaling by one common factor keeps every ratio between entries |
| NativeTemplate.ZerosKeepDirection | lib/src/main/cpp/FaceRecognition.cpp:83-84 | the all-zeros fallback stands in every ratio |
| NativeTemplate.FaceRecognition.CreateFaceRecognitionTemplate | lib/src/main/cpp/FaceRecognition.cpp:43-88 | an `Ort::Exception` from `CreateTensor` or `Run` propagates unchanged; otherwise the computed template is exactly `TemplateSpec` of the network output |
| NativeTemplate.FaceRecognition.LoadModelIO | lib/src/main/cpp/FaceRecognition.cpp:125-151 | all four lists are rebuilt from the session, whatever they held before: exactly `inputCount` and `outputCount` names, agreeing index by index with their string lists |
| NativeTemplate.FaceRecognition.constructor | lib/src/main/cpp/FaceRecognition.cpp:33-42 | a new object holds the 128-entry mean and the session's name lists |
| NativeTemplate.CreateFaceTemplateFromBitmap | lib/src/main/cpp/FaceRecognition.cpp:176-205 | a missing env lets the exception escape; a null context is reported as "Face recognition context is null"; otherwise the first failure of alignment, the network, template creation or allocation becomes a `java.lang.Exception` with its message; a returned array has as many entries as `mean_` |
| NativeTemplate.JniOutcomeOf | lib/src/main/cpp/FaceRecognition.cpp:188-203 | an array is returned exactly when alignment, template creation and allocation all succeed, and it is the template; with an env present nothing aborts |
| NativeTemplate.SmallChipFailsInOnnx | lib/src/main/cpp/FaceRecognition.cpp:44-55 | with a chip size from 2 to 149, a successful alignment still ends in a `java.lang.Exception` carrying ONNX Runtime's message, because the chip is shorter than the fixed `{1, 150, 150, 3}` input |
| NativeTemplate.ChipShorterThanInput | lib/src/main/cpp/FaceRecognition.cpp:44 | a `size` by `size` RGB chip below 150 holds fewer values than the input shape's 67500 |
| NativeTemplate.ShortInputFails | lib/src/main/cpp/FaceRecognition.cpp:47-55 | an input shorter than the input shape makes the network throw, and the JNI entry point reports that exception's message |
| FnvHash.OffsetBasisAsLong | lib/src/androidTest/java/com/appliedrec/facerecognition/dlib/FaceRecognitionTest.kt:142-143 | the offset basis 0xcbf29ce484222325 is -3750763034362895579 as a `Long`, and the prime is 2^40 + 2^8 + 0xb3 |
| FnvHash.ToLong | lib/src/androidTest/java/com/appliedrec/facerecognition/dlib/FaceRecognitionTest.kt:149 | `toLong()` sign-extends a byte and keeps its low 8 bits |
| FnvHash.Octet | lib/src/androidTest/java/com/appliedrec/facerecognition/dlib/FaceRecognitionTest.kt:149 | `toLong() and 0xff` is the unsigned byte value 0..255 |
| FnvHash.Step | lib/src/androidTest/java/com/appliedrec/facerecognition/dlib/FaceRecognitionTest.kt:149-150 | definition only, no contract: one FNV-1a round, xor of the octet then multiplication by the prime modulo 2^64 |
| FnvHash.Fold | lib/src/androidTest/java/com/appliedrec/facerecognition/dlib/FaceRecognitionTest.kt:146-151 | definition only, no contract: the state after absorbing a byte sequence first to last; `FoldConcat` and `FoldCons` state its properties |
| FnvHash.Fnv1a64 | lib/src/androidTest/java/com/appliedrec/facerecognition/dlib/FaceRecognitionTest.kt:143-151 | definition only, no contract: the fold from the offset basis; `FnvOfA` checks it against the published vector for "a" |
| FnvHash.FoldConcat | lib/src/androidTest/java/com/appliedrec/facerecognition/dlib/FaceRecognitionTest.kt:145-152 | the state carries across reads: absorbing `a`, then `b`, is absorbing `a + b` |
| FnvHash.FoldCons | lib/src/androidTest/java/com/appliedrec/facerecognition/dlib/FaceRecognitionTest.kt:148-151 | bytes are absorbed first to last |
| FnvHash.FnvOfA | lib/src/androidTest/java/com/appliedrec/facerecognition/dlib/FaceRecognitionTest.kt:148-151 | the one-byte input "a" hashes to 0xaf63dc4c8601ec8c |
| FnvHash.UnsignedHex | lib/src/androidTest/java/com/appliedrec/facerecognition/dlib/FaceRecognitionTest.kt:153 | `toUnsignedString(_, 16)` gives lower-case hex digits with no leading zero |
| FnvHash.UnsignedHexRoundTrip | lib/src/androidTest/java/com/appliedrec/facerecognition/dlib/FaceRecognitionTest.kt:153 | the hex numeral reads back as the number |
| FnvHash.PadStart | lib/src/androidTest/java/com/appliedrec/facerecognition/dlib/FaceRecognitionTest.kt:153 | `padStart` leaves long strings alone and otherwise prefixes exactly the missing number of pad characters |
| FnvHash.Hex16 | lib/src/androidTest/java/com/appliedrec/facerecognition/dlib/FaceRecognitionTest.kt:153 | definition only, no contract: `toUnsignedString(hash, 16).padStart(16, '0')`; `Hex16Spec` states its properties |
| FnvHash.Hex16Spec | lib/src/androidTest/java/com/appliedrec/facerecognition/dlib/FaceRecognitionTest.kt:153 | the printed hash is exactly 16 hex digits and reads back as the final state |
| FnvHash.EmptyStreamHash | lib/src/androidTest/java/com/appliedrec/facerecognition/dlib/FaceRecognitionTest.kt:142-153 | an empty stream hashes to "cbf29ce484222325" |
| FnvHash.ByteStream.Read | lib/src/androidTest/java/com/appliedrec/facerecognition/dlib/FaceRecognitionTest.kt:146-147 | `read(buf)` returns -1 at the end of the stream; otherwise it delivers some non-empty prefix of what is left into `buf` |
| FnvHash.Absorb | lib/src/androidTest/java/com/appliedrec/facerecognition/dlib/FaceRecognitionTest.kt:148-151 | only the first `read` bytes of the buffer are absorbed |
| FnvHash.Hash | lib/src/androidTest/java/com/appliedrec/facerecognition/dlib/FaceRecognitionTest.kt:140-154 | a negative buffer size fails as `ByteArray` does; otherwise the result is the FNV-1a 64 hash of everything the stream had left, as 16 hex digits, whatever the buffer size and however the reads split the stream |

## Left out

- IEEE-754 arithmetic is not modelled. Scores, template values, `/255` and the normalisation are computed over `real`. No bit-exact float result is claimed, and neither is unit norm.
- `std::sqrt` is a parameter of the template functions. The `float`/`double` casts around it are not modelled.
- These foreign engines are parameters and are not part of this model:
  - ONNX Runtime: session construction, `Run` and the name queries;
  - dlib: `deserialize`, the shape predictor, `get_face_chip_details` and `extract_image_chip`.
- Some behaviours of those engines are requirements on the model instead: the shape predictor returns or throws; chips are `size` by `size`; `CreateTensor` with `Run` returns a tensor or throws `Ort::Exception`; a returned tensor holds as many values as its shape says; `CreateTensor` throws for an input shorter than the input shape (used only by `NativeTemplate.SmallChipFailsInOnnx`). Which other inputs ONNX Runtime rejects, and its messages, are not modelled.
- Construction failures are not modelled: a `deserialize` failure in the native `DlibLandmarks` constructor, which throws "Failed to load predictor: …", and a failing ONNX session creation. Both escape the JNI function `createNativeContext`, and a C++ exception leaving a JNI function ends the process. So no native object with a null predictor is ever built, and the "Predictor not loaded" branch that `AlignedFace.AlignedFaceSpec` keeps cannot be reached in the source.
- LandmarksWrapper.DlibLandmarks: `nativeContext` is a public `var` in `DlibLandmarks.kt`, so callers may null or overwrite it. Writes from outside the class are not modelled. `Valid()`, `LandmarksWrapper.CloseTwice` and the at-most-once destruction hold only when no such writes happen.
- JNI and Android plumbing is not modelled:
  - string marshalling, `GetStringUTFChars`, `NewFloatArray`/`SetFloatArrayRegion` and `ThrowNew`;
  - `AndroidBitmap_getInfo` and `AndroidBitmap_lockPixels` become the `info` and `pixels` fields of a bitmap;
  - `System.loadLibrary`, copying the model assets in `create`, `Bitmap` conversion (`toBitmap`), and `super.close()`.
- `NativeTemplate.CreateFaceTemplateFromBitmap` models the `throw e` with no env as `NativeAbort`. Slicing of the rethrown exception is not modelled.
- `NativeTemplate.What` gives the message of an error the native code raised itself. Out-of-bounds errors are not raised natively, so their message is left empty.
- `NativeTemplate.FaceRecognition.LoadModelIO` models the `c_str()` pointers by the strings they point to. Pointer identity, and the invalidation of pointers when the string vector grows, are not modelled.
- `NativeTemplate.FinalAction.Destroy` counts runs of the action rather than running a callable. No call site in the source uses the guard.
- `NativeTemplate.OutputLength` works over unbounded naturals. The `size_t` wrap of the shape product and negative dimensions (dynamic axes) are not modelled.
- `RecognitionEngine.RoundHalfUp` rounds halves up, as `FastMath.round` does within range when `RectF.round` calls it. Bounds outside the `Int` range are not modelled.
- The advertised `defaultThreshold` of 0.91 (`FaceRecognitionDlib.kt:47`) is not used by any modelled operation, so it is not modelled.
- Concurrency is not modelled: `suspend` functions and coroutines are sequential here.
- FnvHash.ByteStream.Read: the stream is an in-memory byte sequence whose `read` never fails. An `IOException` thrown by `read`, which `hash` passes on to its caller, is not modelled.
- `FnvHash.Hash` requires a non-zero buffer size. With a buffer of size 0, `read` returns 0 forever and the source never terminates.
- `AlignedFace.CopyPixels` keeps the channel shifts exactly as written, so the modelled image carries the red/blue swap described under Findings.
- Where the library's documented design and its code differ, the model follows the code:
  - comparison is one sequential `map`, with no chunking;
  - a candidate shorter than the query fails with an out-of-bounds index, with no dimension-mismatch error, and a longer candidate is accepted;
  - comparison keeps working after `close()`.

## Findings

| source | as written | input that shows it | evidently intended | confidence | as-written member | corrected member |
|---|---|---|---|---|---|---|
| lib/src/main/cpp/DlibLandmarks.cpp:93-97 | the pixel word is read as a native little-endian `uint32_t` and split with r = bits 16-23 and b = bits 0-7, but RGBA_8888 stores its bytes as R, G, B, A, so r takes the blue byte and b the red byte | the opaque red pixel with bytes `[255, 0, 0, 255]` is read as r = 0, b = 255 | r = bits 0-7, g = bits 8-15, b = bits 16-23, a = bits 24-31, so each channel comes from its own byte | not executed | AlignedFace.OpaqueRedReadsAsBlue, AlignedFace.Unpack | AlignedFace.StoredPixelLoadsBack |
