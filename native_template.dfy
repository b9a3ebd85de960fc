/** The native face recognition object (`FaceRecognition.cpp`): the `FinalAction` scope
    guard, the post-processing of the embedding network's output into a template, the
    name lists `loadModelIO` rebuilds, and the error paths of the JNI entry point that
    turns a bitmap into a template. ONNX Runtime and dlib are parameters. */
module NativeTemplate {
  import opened Outcomes
  import opened Vectors
  import AlignedFace

  // ---------------------------------------------------------------------------
  // FinalAction

  /** `FinalAction<F>`: runs its action when it goes out of scope unless dismissed. The
      action itself is not part of this model; `runs` counts how often it ran. */
  class FinalAction {
    var active: bool
    var runs: nat

    /** `FinalAction(f)`, also what `finally(f)` returns. */
    constructor ()
      ensures active && runs == 0
    {
      active := true;
      runs := 0;
    }

    /** `dismiss()`. */
    method Dismiss()
      modifies this
      ensures !active && runs == old(runs)
    {
      active := false;
    }

    /** `~FinalAction()`: the action runs if the guard is still active. */
    method Destroy()
      modifies this
      ensures active == old(active)
      ensures runs == old(runs) + (if old(active) then 1 else 0)
    {
      if active {
        runs := runs + 1;
      }
    }
  }

  /** `finally(f)`: a fresh, active guard. */
  method Finally() returns (g: FinalAction)
    ensures fresh(g) && g.active && g.runs == 0
  {
    g := new FinalAction();
  }

  /** A scope holding a guard: at scope exit the action has run exactly once, or never if
      the guard was dismissed (however often) on the way. */
  method GuardedScope(dismissals: nat) returns (runs: nat)
    ensures runs == if dismissals == 0 then 1 else 0
  {
    var g := Finally();
    for i := 0 to dismissals
      invariant g.runs == 0
      invariant g.active <==> i == 0
    {
      g.Dismiss();
    }
    g.Destroy();
    runs := g.runs;
  }

  // ---------------------------------------------------------------------------
  // createFaceRecognitionTemplate

  /** `mean_`: subtracted from the network output. */
  const MeanVector: seq<real> := [
    -0.1090, 0.0742, 0.0517, -0.0375, -0.0994, -0.0329, -0.0151, -0.1079,
    0.1378, -0.0923, 0.2127, -0.0365, -0.2286, -0.0445, -0.0124, 0.1445,
    -0.1405, -0.1195, -0.1007, -0.0680, 0.0226, 0.0363, 0.0200, 0.0452,
    -0.1115, -0.3154, -0.0861, -0.0857, 0.0347, -0.0633, -0.0212, 0.0540,
    -0.1759, -0.0452, 0.0316, 0.0744, -0.0404, -0.0740, 0.1908, 0.0074,
    -0.1750, 0.0011, 0.0608, 0.2374, 0.1846, 0.0242, 0.0188, -0.0836,
    0.1072, -0.2355, 0.0457, 0.1380, 0.0863, 0.0695, 0.0580, -0.1418,
    0.0218, 0.1214, -0.1886, 0.0353, 0.0607, -0.0795, -0.0504, -0.0594,
    0.2046, 0.1072, -0.1132, -0.1250, 0.1547, -0.1550, -0.0512, 0.0616,
    -0.1190, -0.1681, -0.2682, 0.0425, 0.3917, 0.1305, -0.1568, 0.0228,
    -0.0711, -0.0270, 0.0505, 0.0680, -0.0632, -0.0314, -0.0845, 0.0344,
    0.1964, -0.0246, -0.0093, 0.2210, 0.0085, 0.0091, 0.0245, 0.0508,
    -0.0919, -0.0210, -0.1102, -0.0185, 0.0413, -0.0808, 0.0042, 0.0965,
    -0.1852, 0.1417, -0.0140, -0.0215, 0.0028, -0.0162, -0.0834, -0.0259,
    0.1400, -0.2383, 0.1883, 0.1652, 0.0180, 0.1376, 0.0564, 0.0727,
    -0.0131, -0.0284, -0.1567, -0.0831, 0.0615, -0.0196, 0.0417, 0.0311
  ]

  const MeanLengthMismatch: string := "mean vector length does not match model output length"

  /** An output tensor of the network: its shape and its data, row-major. */
  datatype Tensor = Tensor(shape: seq<nat>, data: seq<real>)

  /** The number of elements a shape describes. */
  function ShapeProduct(shape: seq<nat>): nat
    decreases |shape|
  {
    if shape == [] then 1 else ShapeProduct(shape[..|shape| - 1]) * shape[|shape| - 1]
  }

  /** A tensor holds as many values as its shape says. */
  predicate WellShaped(t: Tensor) {
    |t.data| == ShapeProduct(t.shape)
  }

  /** A shape describes no element exactly when one of its dimensions is 0. */
  lemma {:induction false} ShapeProductZero(shape: seq<nat>)
    ensures ShapeProduct(shape) == 0 <==> exists i :: 0 <= i < |shape| && shape[i] == 0
    decreases |shape|
  {
    if shape != [] {
      var n := |shape| - 1;
      ShapeProductZero(shape[..n]);
      if ShapeProduct(shape[..n]) == 0 {
        var i :| 0 <= i < n && shape[..n][i] == 0;
        assert shape[i] == 0;
      }
      if exists i :: 0 <= i < |shape| && shape[i] == 0 {
        var i :| 0 <= i < |shape| && shape[i] == 0;
        if i < n {
          assert shape[..n][i] == 0;
        }
      }
    }
  }

  /** `mean_` has one entry per template element. */
  lemma MeanVectorLength()
    ensures |MeanVector| == 128
  {
  }

  /** `output - mean`, over the first `n` entries. */
  function Centered(data: seq<real>, mean: seq<real>, n: nat): (v: seq<real>)
    requires n <= |data| && n <= |mean|
    ensures |v| == n
    ensures forall i :: 0 <= i < n ==> v[i] == data[i] - mean[i]
    decreases n
  {
    if n == 0 then [] else Centered(data, mean, n - 1) + [data[n - 1] - mean[n - 1]]
  }

  /** The template for a network output: `invalid_argument` when its length is not that of
      `mean_`; otherwise the centred output scaled by `1 / norm`, or all zeros when the
      norm is not positive. `sqrt` stands for `std::sqrt` followed by the cast to
      `float`. */
  function TemplateSpec(output: Tensor, mean: seq<real>, sqrt: real -> real): (r: Result<seq<real>>)
    requires WellShaped(output)
    ensures r.Success? ==> |r.value| == |mean|
  {
    if |mean| != ShapeProduct(output.shape) then Failure(InvalidArgument(MeanLengthMismatch))
    else
      var v := Centered(output.data, mean, |mean|);
      var norm := sqrt(SumSquares(v));
      if norm > 0.0 then Success(Scaled(v, 1.0 / norm)) else Success(ZerosLike(v))
  }

  /** `createFaceRecognitionTemplate` as a whole: an `Ort::Exception` thrown by
      `CreateTensor` or `Run` leaves it unchanged; an output the network does return is
      post-processed by `TemplateSpec`. */
  function RunTemplateSpec(ran: Result<Tensor>, mean: seq<real>, sqrt: real -> real): (r: Result<seq<real>>)
    requires ran.Success? ==> WellShaped(ran.value)
    ensures ran.Failure? ==> r.Failure? && r.error == ran.error
    ensures r.Success? ==> |r.value| == |mean|
  {
    match ran
    case Failure(e) => Failure(e)
    case Success(output) => TemplateSpec(output, mean, sqrt)
  }

  /** What ONNX Runtime guarantees of `Run`: an output it returns holds as many values as
      its shape says. */
  ghost predicate WellShapedRuns(run: seq<real> -> Result<Tensor>) {
    forall x: seq<real> :: run(x).Success? ==> WellShaped(run(x).value)
  }

  /** The input shape `{1, 150, 150, 3}` passed to `CreateTensor`. */
  const InputShape: seq<nat> := [1, 150, 150, 3]

  /** `CreateTensor` refuses a buffer holding fewer values than the input shape needs, so
      `createFaceRecognitionTemplate` throws for such an input. */
  ghost predicate RejectsShortInput(run: seq<real> -> Result<Tensor>) {
    forall x: seq<real> :: |x| < ShapeProduct(InputShape) ==> run(x).Failure? && run(x).error.OrtException?
  }

  /** `x *= inv` for every entry. */
  function Scaled(v: seq<real>, f: real): (w: seq<real>)
    ensures |w| == |v| && forall i :: 0 <= i < |v| ==> w[i] == Times(v[i], f)
  {
    seq(|v|, i requires 0 <= i < |v| => Times(v[i], f))
  }

  /** One float product `x * inv`. */
  function Times(x: real, f: real): real {
    x * f
  }

  /** `x = 0.0f` for every entry. */
  function ZerosLike(v: seq<real>): (w: seq<real>)
    ensures |w| == |v| && forall i :: 0 <= i < |v| ==> w[i] == 0.0
  {
    seq(|v|, _ => 0.0)
  }

  /** A template exists exactly when the output has as many entries as `mean` (128 for
      `mean_`), and then has that many entries itself: the centred output times one common
      factor `1 / norm`, or all zeros when the norm is not positive. A wrong length is
      `invalid_argument`. */
  lemma TemplateShape(output: Tensor, mean: seq<real>, sqrt: real -> real)
    requires WellShaped(output)
    ensures var r := TemplateSpec(output, mean, sqrt);
      && (r.Success? <==> ShapeProduct(output.shape) == |mean|)
      && (r.Failure? ==> r.error == InvalidArgument(MeanLengthMismatch))
    ensures var r := TemplateSpec(output, mean, sqrt);
      r.Success? ==>
        var v := Centered(output.data, mean, |mean|);
        var norm := sqrt(SumSquares(v));
        && |r.value| == |mean|
        && (norm > 0.0 ==> r.value == Scaled(v, 1.0 / norm))
        && (norm <= 0.0 ==> r.value == ZerosLike(v))
  {
  }

  /** Entries `i` and `j` of `t` stand in the same ratio as those of `v`. */
  predicate SameRatio(t: seq<real>, v: seq<real>, i: int, j: int)
    requires 0 <= i < |t| && 0 <= j < |t| && |t| == |v|
  {
    t[i] * v[j] == t[j] * v[i]
  }

  /** Whatever the norm, the template points the way the centred output does: any two
      entries stand in the same ratio as before. */
  lemma TemplateKeepsDirection(output: Tensor, mean: seq<real>, sqrt: real -> real, i: int, j: int)
    requires WellShaped(output) && TemplateSpec(output, mean, sqrt).Success?
    requires 0 <= i < |mean| && 0 <= j < |mean|
    ensures SameRatio(TemplateSpec(output, mean, sqrt).value, Centered(output.data, mean, |mean|), i, j)
  {
    TemplateShape(output, mean, sqrt);
    var v := Centered(output.data, mean, |mean|);
    var norm := sqrt(SumSquares(v));
    if norm > 0.0 {
      ScaledKeepsDirection(v, 1.0 / norm, i, j);
    } else {
      ZerosKeepDirection(v, i, j);
    }
  }

  /** All zeros stand in every ratio. */
  lemma ZerosKeepDirection(v: seq<real>, i: int, j: int)
    requires 0 <= i < |v| && 0 <= j < |v|
    ensures SameRatio(ZerosLike(v), v, i, j)
  {
    var z := ZerosLike(v);
    assert z[i] == 0.0 && z[j] == 0.0;
  }

  /** Scaling by one common factor keeps every ratio between entries. */
  lemma ScaledKeepsDirection(v: seq<real>, f: real, i: int, j: int)
    requires 0 <= i < |v| && 0 <= j < |v|
    ensures SameRatio(Scaled(v, f), v, i, j)
  {
    var a, b := v[i], v[j];
    assert Scaled(v, f)[i] == a * f && Scaled(v, f)[j] == b * f;
    assert (a * f) * b == (b * f) * a;
  }

  /** The first loop of `createFaceRecognitionTemplate`: `templ[i] = output[i] - mean_[i]`
      into a fresh buffer, summing the squares as it goes. */
  method CenterOutput(data: seq<real>, mean: seq<real>) returns (templ: array<real>, sumsq: real)
    requires |mean| <= |data|
    ensures fresh(templ)
    ensures templ[..] == Centered(data, mean, |mean|)
    ensures sumsq == SumSquares(templ[..])
  {
    templ := new real[|mean|];
    sumsq := 0.0;
    for i := 0 to |mean|
      invariant templ[..i] == Centered(data, mean, i)
      invariant sumsq == SumSquares(Centered(data, mean, i))
    {
      var v := data[i] - mean[i];
      templ[i] := v;
      assert templ[..i + 1] == Centered(data, mean, i) + [v];
      SumSquaresAppend(Centered(data, mean, i), v);
      sumsq := sumsq + v * v;
    }
    assert templ[..|mean|] == templ[..];
  }

  /** `for (auto& x : templ) x *= inv;` */
  method ScaleInPlace(templ: array<real>, inv: real)
    modifies templ
    ensures templ[..] == Scaled(old(templ[..]), inv)
  {
    for i := 0 to templ.Length
      invariant forall j :: 0 <= j < i ==> templ[j] == Times(old(templ[j]), inv)
      invariant forall j :: i <= j < templ.Length ==> templ[j] == old(templ[j])
    {
      templ[i] := Times(templ[i], inv);
    }
  }

  /** `for (auto& x : templ) x = 0.0f;` */
  method ZeroInPlace(templ: array<real>)
    modifies templ
    ensures templ[..] == ZerosLike(old(templ[..]))
  {
    for i := 0 to templ.Length
      invariant forall j :: 0 <= j < i ==> templ[j] == 0.0
    {
      templ[i] := 0.0;
    }
  }

  /** The `total *= d` loop over the output shape. */
  method OutputLength(shape: seq<nat>) returns (total: nat)
    ensures total == ShapeProduct(shape)
  {
    total := 1;
    for k := 0 to |shape|
      invariant total == ShapeProduct(shape[..k])
    {
      assert shape[..k + 1][..k] == shape[..k];
      total := total * shape[k];
    }
    assert shape[..|shape|] == shape;
  }

  /** Session input and output names, as `GetInputNameAllocated` and
      `GetOutputNameAllocated` report them. */
  datatype Session = Session(inputNames: seq<string>, outputNames: seq<string>)

  /** `AlignedFace.createAlignedFace`'s dependencies: dlib's predictor and chip extraction. */
  datatype Landmarks = Landmarks(predict: AlignedFace.Predictor, extract: AlignedFace.ChipExtractor)

  /** The native `FaceRecognition` object. */
  class FaceRecognition {
    /** The ONNX session: its declared names, and what `CreateTensor` followed by `Run`
        returns for an input, or the `Ort::Exception` one of them throws. */
    const session: Session
    const run: seq<real> -> Result<Tensor>
    /** `dlibLandmarks`, whose predictor loaded (the constructor throws otherwise). */
    const landmarks: Landmarks
    /** `mean_`. */
    const mean: seq<real>

    var inputNamesStr: seq<string>
    var outputNamesStr: seq<string>
    /** `inputNames_` / `outputNames_`: the `c_str()` pointers, by the strings they point
        to. */
    var inputNames: seq<string>
    var outputNames: seq<string>

    /** `FaceRecognition(modelPath, landmarksModelPath)` once the session and predictor
        exist: it loads the model's input and output names. */
    constructor (session: Session, run: seq<real> -> Result<Tensor>, landmarks: Landmarks)
      ensures this.session == session && this.run == run && this.landmarks == landmarks
      ensures mean == MeanVector && |mean| == 128
      ensures inputNamesStr == inputNames == session.inputNames
      ensures outputNamesStr == outputNames == session.outputNames
    {
      this.session := session;
      this.run := run;
      this.landmarks := landmarks;
      mean := MeanVector;
      MeanVectorLength();
      inputNamesStr, outputNamesStr, inputNames, outputNames := [], [], [], [];
      new;
      LoadModelIO();
    }

    /** `loadModelIO()`: the four lists are cleared and refilled from the session, so they
        hold exactly `inputCount` and `outputCount` names, pointer list and string list
        agreeing index by index, whatever they held before. */
    method LoadModelIO()
      modifies this
      ensures inputNamesStr == inputNames == session.inputNames
      ensures outputNamesStr == outputNames == session.outputNames
      ensures |inputNames| == |session.inputNames| && |outputNames| == |session.outputNames|
    {
      var inputCount, outputCount := |session.inputNames|, |session.outputNames|;
      inputNamesStr, outputNamesStr, inputNames, outputNames := [], [], [], [];

      for i := 0 to inputCount
        invariant inputNamesStr == session.inputNames[..i]
        invariant outputNamesStr == inputNames == outputNames == []
      {
        inputNamesStr := inputNamesStr + [session.inputNames[i]];
      }
      for i := 0 to |inputNamesStr|
        invariant inputNamesStr == session.inputNames
        invariant inputNames == inputNamesStr[..i]
        invariant outputNamesStr == outputNames == []
      {
        inputNames := inputNames + [inputNamesStr[i]];
      }

      for i := 0 to outputCount
        invariant inputNamesStr == inputNames == session.inputNames
        invariant outputNamesStr == session.outputNames[..i]
        invariant outputNames == []
      {
        outputNamesStr := outputNamesStr + [session.outputNames[i]];
      }
      for i := 0 to |outputNamesStr|
        invariant inputNamesStr == inputNames == session.inputNames
        invariant outputNamesStr == session.outputNames
        invariant outputNames == outputNamesStr[..i]
      {
        outputNames := outputNames + [outputNamesStr[i]];
      }
    }

    /** `createFaceRecognitionTemplate(inputData)`: runs the network and post-processes its
        output; an `Ort::Exception` from the network propagates. */
    method CreateFaceRecognitionTemplate(inputData: seq<real>, sqrt: real -> real) returns (r: Result<seq<real>>)
      requires run(inputData).Success? ==> WellShaped(run(inputData).value)
      ensures r == RunTemplateSpec(run(inputData), mean, sqrt)
    {
      var ran := run(inputData);
      if ran.Failure? {
        return Failure(ran.error);
      }
      var output := ran.value;
      var total := OutputLength(output.shape);
      if |mean| != total {
        return Failure(InvalidArgument(MeanLengthMismatch));
      }
      var templ, sumsq := CenterOutput(output.data, mean);
      var norm := sqrt(sumsq);
      if norm > 0.0 {
        var inv := 1.0 / norm;
        ScaleInPlace(templ, inv);
      } else {
        ZeroInPlace(templ);
      }
      r := Success(templ[..]);
    }
  }

  // ---------------------------------------------------------------------------
  // The JNI entry point

  /** What the JNI call hands back to Kotlin: a float array, or a pending
      `java.lang.Exception` with a message; or no return at all, when an exception escapes
      the native function because there is no `JNIEnv` to raise it through. */
  datatype JniOutcome = Returned(values: seq<real>) | JavaException(className: string, message: string) | NativeAbort

  const JavaLangException: string := "java/lang/Exception"

  /** `e.what()` of an exception raised in native code. */
  function What(e: Error): string {
    match e
    case RuntimeError(m) => m
    case InvalidArgument(m) => m
    case IllegalState(m) => m
    case IndexOutOfBounds(_) => ""
    case NegativeArraySize(_) => ""
    case OrtException(m) => m
  }

  /** The outcome once env and context are present: the first failure of alignment,
      template creation or array allocation becomes a Java exception with its message. */
  function JniOutcomeOf(aligned: Result<seq<real>>, templ: seq<real> -> Result<seq<real>>, allocationSucceeds: bool): (o: JniOutcome)
    ensures o.Returned? <==> aligned.Success? && templ(aligned.value).Success? && allocationSucceeds
    ensures o.Returned? ==> o.values == templ(aligned.value).value
    ensures !o.NativeAbort?
  {
    match aligned
    case Failure(e) => JavaException(JavaLangException, What(e))
    case Success(input) =>
      match templ(input)
      case Failure(e) => JavaException(JavaLangException, What(e))
      case Success(t) =>
        if allocationSucceeds then Returned(t)
        else JavaException(JavaLangException, "Failed to allocate jfloatArray")
  }

  /** `Java_..._createFaceTemplateFromBitmap`: `recognition` is the context pointer;
      `allocationSucceeds` is whether `NewFloatArray` returns an array. */
  method CreateFaceTemplateFromBitmap(
    envPresent: bool, recognition: FaceRecognition?, bitmap: Option<AlignedFace.AndroidBitmap>,
    left: int, top: int, right: int, bottom: int, size: int, padding: real,
    sqrt: real -> real, allocationSucceeds: bool)
    returns (outcome: JniOutcome)
    requires AlignedFace.PlatformBitmap(bitmap)
    requires recognition != null ==> AlignedFace.SquareChips(recognition.landmarks.extract, size, padding)
    requires recognition != null ==> WellShapedRuns(recognition.run)
    ensures !envPresent ==> outcome == NativeAbort
    ensures envPresent && recognition == null ==>
      outcome == JavaException(JavaLangException, "Face recognition context is null")
    ensures envPresent && recognition != null ==>
      var aligned := AlignedFace.AlignedFaceSpec(true, bitmap, left, top, right, bottom, size, padding,
        recognition.landmarks.predict, recognition.landmarks.extract);
      outcome == JniOutcomeOf(aligned, x => RunTemplateSpec(recognition.run(x), recognition.mean, sqrt), allocationSucceeds)
    ensures outcome.Returned? ==> |outcome.values| == |recognition.mean|
  {
    if !envPresent {
      return NativeAbort;
    }
    if recognition == null {
      return JavaException(JavaLangException, "Face recognition context is null");
    }
    var aligned, _ := AlignedFace.CreateAlignedFace(true, bitmap, left, top, right, bottom, size, padding,
      recognition.landmarks.predict, recognition.landmarks.extract);
    if aligned.Failure? {
      return JavaException(JavaLangException, What(aligned.error));
    }
    var templateData := recognition.CreateFaceRecognitionTemplate(aligned.value, sqrt);
    if templateData.Failure? {
      return JavaException(JavaLangException, What(templateData.error));
    }
    if !allocationSucceeds {
      return JavaException(JavaLangException, "Failed to allocate jfloatArray");
    }
    outcome := Returned(templateData.value);
  }

  /** A chip smaller than the 150 by 150 the network's input shape is fixed at cannot be
      turned into a template: once alignment succeeds, `CreateTensor` throws and Kotlin gets
      a `java.lang.Exception` with ONNX Runtime's message, whether or not an array could
      be allocated. */
  lemma SmallChipFailsInOnnx(
    landmarks: Landmarks, run: seq<real> -> Result<Tensor>, mean: seq<real>,
    bitmap: Option<AlignedFace.AndroidBitmap>,
    left: int, top: int, right: int, bottom: int, size: int, padding: real,
    sqrt: real -> real, allocationSucceeds: bool)
    requires AlignedFace.PlatformBitmap(bitmap) && AlignedFace.SquareChips(landmarks.extract, size, padding)
    requires WellShapedRuns(run) && RejectsShortInput(run)
    requires 1 < size < 150
    ensures var aligned := AlignedFace.AlignedFaceSpec(true, bitmap, left, top, right, bottom, size, padding,
        landmarks.predict, landmarks.extract);
      aligned.Success? ==>
        && run(aligned.value).Failure? && run(aligned.value).error.OrtException?
        && JniOutcomeOf(aligned, x => RunTemplateSpec(run(x), mean, sqrt), allocationSucceeds)
           == JavaException(JavaLangException, run(aligned.value).error.message)
  {
    var aligned := AlignedFace.AlignedFaceSpec(true, bitmap, left, top, right, bottom, size, padding,
      landmarks.predict, landmarks.extract);
    if aligned.Success? {
      AlignedFace.AlignedFaceOutcome(true, bitmap, left, top, right, bottom, size, padding,
        landmarks.predict, landmarks.extract);
      ChipShorterThanInput(size);
      ShortInputFails(run, mean, sqrt, aligned, allocationSucceeds);
    }
  }

  /** A `size` by `size` RGB chip below 150 has fewer values than the input shape needs. */
  lemma ChipShorterThanInput(size: int)
    requires 0 <= size < 150
    ensures size * size * 3 < ShapeProduct(InputShape)
  {
    var a, b, c: seq<nat> := [1], [1, 150], [1, 150, 150];
    assert a[..0] == [] && b[..1] == a && c[..2] == b && InputShape[..3] == c;
    assert ShapeProduct(InputShape) == 67500;
    assert size * size <= 149 * size <= 149 * 149;
  }

  /** An aligned chip too short for the input shape ends as the Java exception carrying
      ONNX Runtime's message. */
  lemma ShortInputFails(run: seq<real> -> Result<Tensor>, mean: seq<real>, sqrt: real -> real,
    aligned: Result<seq<real>>, allocationSucceeds: bool)
    requires WellShapedRuns(run) && RejectsShortInput(run)
    requires aligned.Success? && |aligned.value| < ShapeProduct(InputShape)
    ensures run(aligned.value).Failure? && run(aligned.value).error.OrtException?
    ensures JniOutcomeOf(aligned, x => RunTemplateSpec(run(x), mean, sqrt), allocationSucceeds)
      == JavaException(JavaLangException, run(aligned.value).error.message)
  {
  }
}
