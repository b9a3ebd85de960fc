/** `FaceRecognitionDlib`: the engine facade. It holds the native context from
    construction until `close()`, turns detected faces into templates through the native
    extractor, and scores candidate templates against a query. */
module RecognitionEngine {
  import opened Outcomes
  import opened NativeBridge
  import opened FaceTemplates
  import opened Vectors

  /** The template version the engine advertises. */
  const EngineVersion: Version := V16

  /** A detected face, by its sub-pixel bounds. */
  datatype Face = Face(bounds: RectF)

  /** `FastMath.round`, which `RectF.round` applies to a coordinate: the nearest integer,
      halves rounded up. */
  function RoundHalfUp(x: real): (n: int)
    ensures x - 0.5 < n as real <= x + 0.5
  {
    (x + 0.5).Floor
  }

  /** `RectF.round(rect)`: each coordinate rounded on its own. */
  function RoundRect(r: RectF): (rect: Rect)
    ensures r.left - 0.5 < rect.left as real <= r.left + 0.5
    ensures r.top - 0.5 < rect.top as real <= r.top + 0.5
    ensures r.right - 0.5 < rect.right as real <= r.right + 0.5
    ensures r.bottom - 0.5 < rect.bottom as real <= r.bottom + 0.5
  {
    Rect(RoundHalfUp(r.left), RoundHalfUp(r.top), RoundHalfUp(r.right), RoundHalfUp(r.bottom))
  }

  /** The native `createFaceTemplateFromBitmap`, which returns the template data or throws.
      Its inside is not part of this model. */
  type TemplateExtractor = ChipRequest -> Result<seq<FloatBits>>

  /** The native call made for one face. */
  function FaceRequest(context: Handle, image: Bitmap, face: Face): ChipRequest {
    RequestFor(context, image, RoundRect(face.bounds))
  }

  // ---------------------------------------------------------------------------
  // Template creation: `faces.map { ... }`

  /** The templates for `faces`, or the exception of the first face whose native call
      throws (the `map` does not go on after it). */
  function CreateTemplatesSpec(extract: TemplateExtractor, context: Handle, image: Bitmap, faces: seq<Face>): (r: Result<seq<Template>>)
    ensures r.Success? ==> |r.value| == |faces|
    decreases |faces|
  {
    if faces == [] then Success([])
    else
      var data :- extract(FaceRequest(context, image, faces[0]));
      var rest :- CreateTemplatesSpec(extract, context, image, faces[1..]);
      Success([MakeDlibTemplate(data)] + rest)
  }

  /** The native calls the `map` makes: one per face, in order, up to and including the
      first that throws. */
  function IssuedCalls(extract: TemplateExtractor, context: Handle, image: Bitmap, faces: seq<Face>): seq<NativeCall>
    decreases |faces|
  {
    if faces == [] then []
    else
      var q := FaceRequest(context, image, faces[0]);
      if extract(q).Failure? then [ChipCall(q)]
      else [ChipCall(q)] + IssuedCalls(extract, context, image, faces[1..])
  }

  /** Template creation is all or nothing, one template per face in input order; each
      call passes the face's rounded bounds with size 150 and padding 0.25. */
  lemma {:induction false} CreateTemplatesOnePerFace(extract: TemplateExtractor, context: Handle, image: Bitmap, faces: seq<Face>)
    ensures var r := CreateTemplatesSpec(extract, context, image, faces);
      && (r.Success? <==> forall i :: 0 <= i < |faces| ==> extract(FaceRequest(context, image, faces[i])).Success?)
      && (r.Success? ==> |r.value| == |faces|)
      && (r.Success? ==> forall i :: 0 <= i < |faces| ==>
            r.value[i] == MakeDlibTemplate(extract(FaceRequest(context, image, faces[i])).value))
    ensures var r := CreateTemplatesSpec(extract, context, image, faces);
      r.Failure? ==>
        exists k :: 0 <= k < |faces| &&
          (forall j :: 0 <= j < k ==> extract(FaceRequest(context, image, faces[j])).Success?) &&
          extract(FaceRequest(context, image, faces[k])) == Failure(r.error)
    ensures var calls := IssuedCalls(extract, context, image, faces);
      && |calls| <= |faces|
      && (CreateTemplatesSpec(extract, context, image, faces).Success? ==> |calls| == |faces|)
      && forall i :: 0 <= i < |calls| ==> calls[i] == ChipCall(FaceRequest(context, image, faces[i]))
    decreases |faces|
  {
    if faces != [] {
      var rest := faces[1..];
      CreateTemplatesOnePerFace(extract, context, image, rest);
      assert forall i :: 1 <= i < |faces| ==> faces[i] == rest[i - 1];
      var r := CreateTemplatesSpec(extract, context, image, faces);
      if r.Failure? && extract(FaceRequest(context, image, faces[0])).Success? {
        var k :| 0 <= k < |rest| &&
          (forall j :: 0 <= j < k ==> extract(FaceRequest(context, image, rest[j])).Success?) &&
          extract(FaceRequest(context, image, rest[k])) == Failure(r.error);
        assert faces[k + 1] == rest[k];
      }
    }
  }

  /** Every template the engine creates is of the version it advertises. */
  lemma TemplatesCarryEngineVersion(extract: TemplateExtractor, context: Handle, image: Bitmap, faces: seq<Face>)
    requires CreateTemplatesSpec(extract, context, image, faces).Success?
    ensures var ts := CreateTemplatesSpec(extract, context, image, faces).value;
      forall i :: 0 <= i < |ts| ==> ts[i].version == EngineVersion
  {
    CreateTemplatesOnePerFace(extract, context, image, faces);
  }

  // ---------------------------------------------------------------------------
  // Comparison: `1 - d^2 / 4` from accumulated sums, clamped twice

  /** `dot(q, x)` over the indices of `q`. */
  function Dot(q: seq<real>, x: seq<real>): real
    requires |q| <= |x|
    decreases |q|
  {
    if q == [] then 0.0 else Dot(q[..|q| - 1], x) + q[|q| - 1] * x[|q| - 1]
  }

  function Max(a: real, b: real): real {
    if a >= b then a else b
  }

  /** Kotlin `coerceIn(lo, hi)`. */
  function CoerceIn(v: real, lo: real, hi: real): (c: real)
    requires lo <= hi
    ensures lo <= c <= hi
    ensures lo <= v <= hi ==> c == v
  {
    if v < lo then lo else if v > hi then hi else v
  }

  /** The score from `||q||^2`, `||x||^2` and `q.x`. */
  function Score(q2: real, x2: real, dot: real): (s: real)
    ensures 0.0 <= s <= 1.0
  {
    var d2 := Max(0.0, q2 + x2 - 2.0 * dot);
    var s := 1.0 - 0.25 * d2;
    CoerceIn(s, 0.0, 1.0)
  }

  /** The score of one candidate, or the out-of-bounds read of `x.data[i]` at the first
      index the candidate lacks. */
  function CandidateScore(query: seq<real>, x: seq<real>): (r: Result<real>)
    ensures r.Failure? <==> |x| < |query|
    ensures r.Success? ==> 0.0 <= r.value <= 1.0
  {
    if |x| < |query| then Failure(IndexOutOfBounds(|x|))
    else Success(Score(SumSquares(query), SumSquares(x), Dot(query, x)))
  }

  /** The scores of `candidates` in order, or the failure of the first that has one. */
  function CompareSpec(candidates: seq<seq<real>>, query: seq<real>): (r: Result<seq<real>>)
    ensures r.Success? ==> |r.value| == |candidates|
    decreases |candidates|
  {
    if candidates == [] then Success([])
    else
      var scores :- CompareSpec(candidates[..|candidates| - 1], query);
      var s :- CandidateScore(query, candidates[|candidates| - 1]);
      Success(scores + [s])
  }

  /** Before `coerceIn`, the clamp `d^2 >= 0` already keeps the score at most 1; after it
      every score lies in [0, 1]. */
  lemma ScoreBounds(q2: real, x2: real, dot: real)
    ensures 1.0 - 0.25 * Max(0.0, q2 + x2 - 2.0 * dot) <= 1.0
    ensures 0.0 <= Score(q2, x2, dot) <= 1.0
  {
  }

  /** One score per candidate, the i-th belonging to the i-th candidate, each in [0, 1];
      the call fails exactly when some candidate is shorter than the query. */
  lemma {:induction false} CompareOnePerCandidate(candidates: seq<seq<real>>, query: seq<real>)
    ensures var r := CompareSpec(candidates, query);
      && (r.Success? <==> forall i :: 0 <= i < |candidates| ==> |candidates[i]| >= |query|)
      && (r.Success? ==> |r.value| == |candidates|)
      && (r.Success? ==> forall i :: 0 <= i < |candidates| ==>
            r.value[i] == CandidateScore(query, candidates[i]).value && 0.0 <= r.value[i] <= 1.0)
    ensures var r := CompareSpec(candidates, query);
      r.Failure? ==>
        exists k :: 0 <= k < |candidates| && |candidates[k]| < |query| &&
          r.error == IndexOutOfBounds(|candidates[k]|) &&
          forall j :: 0 <= j < k ==> |candidates[j]| >= |query|
    decreases |candidates|
  {
    if candidates != [] {
      var n := |candidates| - 1;
      var init := candidates[..n];
      CompareOnePerCandidate(init, query);
      assert forall i :: 0 <= i < n ==> init[i] == candidates[i];
      var r := CompareSpec(candidates, query);
      if r.Success? {
        var x := candidates[n];
        ScoreBounds(SumSquares(query), SumSquares(x), Dot(query, x));
      } else if CompareSpec(init, query).Success? {
        assert |candidates[n]| < |query|;
      }
    }
  }

  /** A failure in a prefix of the candidates is the failure of the whole call. */
  lemma {:induction false} CompareFailurePersists(candidates: seq<seq<real>>, query: seq<real>, c: nat)
    requires c <= |candidates|
    requires CompareSpec(candidates[..c], query).Failure?
    ensures CompareSpec(candidates, query) == CompareSpec(candidates[..c], query)
    decreases |candidates| - c
  {
    if c < |candidates| {
      assert candidates[..c + 1][..c] == candidates[..c];
      CompareFailurePersists(candidates, query, c + 1);
    } else {
      assert candidates[..c] == candidates;
    }
  }

  /** `q - sign * x`, element-wise. */
  function Combination(q: seq<real>, x: seq<real>, sign: real): (d: seq<real>)
    requires |q| == |x|
    ensures |d| == |q|
    decreases |q|
  {
    if q == [] then []
    else Combination(q[..|q| - 1], x[..|x| - 1], sign) + [q[|q| - 1] - sign * x[|x| - 1]]
  }

  /** `dot(q, x)` reads only the first `|q|` entries of `x`. */
  lemma {:induction false} DotIgnoresTail(q: seq<real>, x: seq<real>, m: nat)
    requires |q| <= m <= |x|
    ensures Dot(q, x) == Dot(q, x[..m])
    decreases |q|
  {
    if q != [] {
      DotIgnoresTail(q[..|q| - 1], x, m);
    }
  }

  /** `||q||^2 + ||x||^2 - 2 sign (q.x) == ||q - sign x||^2`. */
  lemma {:induction false} ExpandSquare(q: seq<real>, x: seq<real>, sign: real)
    requires |q| == |x| && (sign == 1.0 || sign == -1.0)
    ensures SumSquares(q) + SumSquares(x) - 2.0 * sign * Dot(q, x) == SumSquares(Combination(q, x, sign))
    decreases |q|
  {
    if q != [] {
      var n := |q| - 1;
      var q', x' := q[..n], x[..n];
      ExpandSquare(q', x', sign);
      DotIgnoresTail(q', x, n);
      var d := Combination(q, x, sign);
      assert d[..n] == Combination(q', x', sign);
      ExpandStep(SumSquares(q'), SumSquares(x'), Dot(q', x'), SumSquares(d[..n]), q[n], x[n], d[n], sign);
    }
  }

  /** The expansion with the sign multiplied out, for `q - x` and for `q + x`. */
  lemma SignedExpansion(q: seq<real>, x: seq<real>, sign: real)
    requires |q| == |x| && (sign == 1.0 || sign == -1.0)
    ensures sign == 1.0 ==> SumSquares(q) + SumSquares(x) - 2.0 * Dot(q, x) == SumSquares(Combination(q, x, sign))
    ensures sign == -1.0 ==> SumSquares(q) + SumSquares(x) + 2.0 * Dot(q, x) == SumSquares(Combination(q, x, sign))
  {
    ExpandSquare(q, x, sign);
    WithSign(SumSquares(q), SumSquares(x), Dot(q, x), SumSquares(Combination(q, x, sign)), sign);
  }

  /** One more coordinate on both sides of the expansion. */
  lemma ExpandStep(sq: real, sx: real, dot: real, sd: real, a: real, b: real, e: real, sign: real)
    requires sign == 1.0 || sign == -1.0
    requires sq + sx - 2.0 * sign * dot == sd && e == a - sign * b
    ensures (sq + a * a) + (sx + b * b) - 2.0 * sign * (dot + a * b) == sd + e * e
  {
    SquareOfDifference(a, b, sign);
    assert 2.0 * sign * (dot + a * b) == 2.0 * sign * dot + 2.0 * sign * (a * b);
  }

  lemma SquareOfDifference(a: real, b: real, sign: real)
    requires sign == 1.0 || sign == -1.0
    ensures (a - sign * b) * (a - sign * b) == a * a + b * b - 2.0 * sign * (a * b)
  {
    if sign == 1.0 {
      assert (a - b) * (a - b) == a * a + b * b - 2.0 * (a * b);
    } else {
      assert (a + b) * (a + b) == a * a + b * b + 2.0 * (a * b);
    }
  }

  /** Over real numbers `d^2` is the squared distance `||q - x||^2`, so the clamp to 0 never
      changes it: the clamp only absorbs floating-point round-off. */
  lemma DistanceIsSquaredNorm(q: seq<real>, x: seq<real>)
    requires |q| == |x|
    ensures SumSquares(q) + SumSquares(x) - 2.0 * Dot(q, x) == SumSquares(Combination(q, x, 1.0))
    ensures SumSquares(q) + SumSquares(x) - 2.0 * Dot(q, x) >= 0.0
  {
    SignedExpansion(q, x, 1.0);
  }

  lemma WithSign(sq: real, sx: real, dot: real, sd: real, sign: real)
    requires sq + sx - 2.0 * sign * dot == sd
    ensures sign == 1.0 ==> sq + sx - 2.0 * dot == sd
    ensures sign == -1.0 ==> sq + sx + 2.0 * dot == sd
  {
  }

  /** A template compared with itself scores 1. */
  lemma SelfScoreIsOne(q: seq<real>)
    ensures CandidateScore(q, q) == Success(1.0)
  {
    DistanceIsSquaredNorm(q, q);
    SelfDifferenceIsZero(q);
  }

  /** `||q - q||^2 == 0`. */
  lemma {:induction false} SelfDifferenceIsZero(q: seq<real>)
    ensures SumSquares(Combination(q, q, 1.0)) == 0.0
    decreases |q|
  {
    if q != [] {
      SelfDifferenceIsZero(q[..|q| - 1]);
    }
  }

  /** For unit-norm vectors the score is the rescaled cosine `(cos(q, x) + 1) / 2`. */
  lemma UnitNormScoreIsRescaledCosine(q: seq<real>, x: seq<real>)
    requires |q| == |x| && SumSquares(q) == 1.0 && SumSquares(x) == 1.0
    ensures CandidateScore(q, x) == Success((Dot(q, x) + 1.0) / 2.0)
  {
    DistanceIsSquaredNorm(q, x);
    SignedExpansion(q, x, -1.0);
  }

  /** `var q2 = 0f; for (v in data) q2 += v * v`. */
  method SquaredNorm(v: seq<real>) returns (s: real)
    ensures s == SumSquares(v)
  {
    s := 0.0;
    for k := 0 to |v|
      invariant s == SumSquares(v[..k])
    {
      assert v[..k + 1][..k] == v[..k];
      s := s + v[k] * v[k];
    }
    assert v[..|v|] == v;
  }

  /** `for (i in template.data.indices) dot += template.data[i] * x.data[i]`: the read of
      `x.data[i]` fails at the first index `x` lacks. */
  method DotProduct(q: seq<real>, x: seq<real>) returns (r: Result<real>)
    ensures |x| < |q| ==> r == Failure(IndexOutOfBounds(|x|))
    ensures |q| <= |x| ==> r == Success(Dot(q, x))
  {
    var dot := 0.0;
    for i := 0 to |q|
      invariant i <= |x| && dot == Dot(q[..i], x)
    {
      if i >= |x| {
        return Failure(IndexOutOfBounds(i));
      }
      assert q[..i + 1][..i] == q[..i];
      dot := dot + q[i] * x[i];
    }
    assert q[..|q|] == q;
    r := Success(dot);
  }

  // ---------------------------------------------------------------------------
  // The facade object

  class FaceRecognitionDlib {
    /** The native extractor behind `createFaceTemplateFromBitmap`. */
    const extract: TemplateExtractor
    /** The model paths the native context was created from. */
    ghost const modelPaths: seq<string>
    /** The context `createNativeContext` returned at construction. */
    ghost const created: Handle

    var nativeContext: Option<Handle>
    /** Every native call this object has made, in order. */
    ghost var calls: seq<NativeCall>

    ghost predicate Valid()
      reads this
    {
      && LifecycleLog(calls, modelPaths, created, nativeContext.Some?)
      && (nativeContext.Some? ==> nativeContext.value == created)
    }

    /** `init`: `nativeContext = createNativeContext(dlibLandmarksModelPath, modelPath)`,
        where `context` is what that native call returned. */
    constructor (dlibLandmarksModelPath: string, modelPath: string, context: Handle, extract: TemplateExtractor)
      ensures Valid()
      ensures nativeContext == Some(context) && created == context && this.extract == extract
      ensures calls == [CreateContext([dlibLandmarksModelPath, modelPath])]
    {
      this.extract := extract;
      modelPaths := [dlibLandmarksModelPath, modelPath];
      created := context;
      nativeContext := Some(context);
      calls := [CreateContext([dlibLandmarksModelPath, modelPath])];
    }

    /** `createFaceRecognitionTemplates(faces, image)`: `Library closed` with no native call
        once closed; otherwise the templates of the faces through the one context. */
    method CreateFaceRecognitionTemplates(faces: seq<Face>, image: Bitmap) returns (r: Result<seq<Template>>)
      requires Valid()
      modifies this`calls
      ensures Valid()
      ensures old(nativeContext).None? ==> r == Failure(IllegalState(LibraryClosed)) && calls == old(calls)
      ensures old(nativeContext).Some? ==>
        && r == CreateTemplatesSpec(extract, created, image, faces)
        && calls == old(calls) + IssuedCalls(extract, created, image, faces)
    {
      match nativeContext
      case None =>
        r := Failure(IllegalState(LibraryClosed));
      case Some(context) =>
        r := CreateTemplatesSpec(extract, context, image, faces);
        ghost var issued := IssuedCalls(extract, context, image, faces);
        CreateTemplatesOnePerFace(extract, context, image, faces);
        calls := calls + issued;
    }

    /** `compareFaceRecognitionTemplates(faceRecognitionTemplates, template)`, with each
        template's data read as numbers. It never touches the native context, so it
        behaves the same before and after `close()`. */
    method CompareFaceRecognitionTemplates(candidates: seq<seq<real>>, template: seq<real>) returns (r: Result<seq<real>>)
      ensures r == CompareSpec(candidates, template)
    {
      var q2 := SquaredNorm(template);
      var scores: seq<real> := [];
      for c := 0 to |candidates|
        invariant CompareSpec(candidates[..c], template) == Success(scores)
      {
        var x := candidates[c];
        assert candidates[..c + 1][..c] == candidates[..c];
        var dot := DotProduct(template, x);
        if dot.Failure? {
          CompareFailurePersists(candidates, template, c + 1);
          return Failure(dot.error);
        }
        var x2 := SquaredNorm(x);
        var d2 := Max(0.0, q2 + x2 - 2.0 * dot.value);
        var s := 1.0 - 0.25 * d2;
        scores := scores + [CoerceIn(s, 0.0, 1.0)];
      }
      assert candidates[..|candidates|] == candidates;
      r := Success(scores);
    }

    /** `close()`: destroys the context if there still is one, then forgets it. */
    method Close()
      requires Valid()
      modifies this`nativeContext, this`calls
      ensures Valid() && nativeContext == None
      ensures old(nativeContext).Some? ==> calls == old(calls) + [DestroyContext(old(nativeContext).value)]
      ensures old(nativeContext).None? ==> calls == old(calls)
    {
      if nativeContext.Some? {
        calls := calls + [DestroyContext(nativeContext.value)];
      }
      nativeContext := None;
    }
  }

  /** An engine that makes templates, is closed twice, and is used again: the templates
      come from the context made at construction, creation after closing fails with
      `Library closed`, comparison gives the same scores open or closed, and the context
      was destroyed exactly once. */
  method UseAfterClose(
    dlibLandmarksModelPath: string, modelPath: string, context: Handle, extract: TemplateExtractor,
    faces: seq<Face>, image: Bitmap, candidates: seq<seq<real>>, query: seq<real>)
    returns (before: Result<seq<Template>>, after: Result<seq<Template>>,
             scoresOpen: Result<seq<real>>, scoresClosed: Result<seq<real>>, ghost destroyed: nat)
    ensures before == CreateTemplatesSpec(extract, context, image, faces)
    ensures after == Failure(IllegalState(LibraryClosed))
    ensures scoresOpen == scoresClosed == CompareSpec(candidates, query)
    ensures destroyed == 1
  {
    var engine := new FaceRecognitionDlib(dlibLandmarksModelPath, modelPath, context, extract);
    before := engine.CreateFaceRecognitionTemplates(faces, image);
    scoresOpen := engine.CompareFaceRecognitionTemplates(candidates, query);
    engine.Close();
    engine.Close();
    after := engine.CreateFaceRecognitionTemplates(faces, image);
    scoresClosed := engine.CompareFaceRecognitionTemplates(candidates, query);
    DestroyedAtMostOnce(engine.calls, [dlibLandmarksModelPath, modelPath], context, false);
    destroyed := DestroyCount(engine.calls);
  }
}
