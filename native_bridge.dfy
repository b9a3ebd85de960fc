/** What the two Kotlin wrappers share: the geometry they pass across JNI, the fixed chip
    parameters, and the record of native calls by which their lifecycle is stated. */
module NativeBridge {

  /** `android.graphics.Rect`. */
  datatype Rect = Rect(left: int, top: int, right: int, bottom: int)

  /** `android.graphics.RectF`, with its `Float` coordinates read as reals. */
  datatype RectF = RectF(left: real, top: real, right: real, bottom: real)

  /** A bitmap handed to native code, known here only by identity. */
  datatype Bitmap = Bitmap(id: nat)

  /** The `Long` a wrapper keeps as `nativeContext`: the address of the native object. */
  type Handle = int

  /** Edge length of the aligned face chip. */
  const ChipSize: int := 150

  /** Padding around the face when the chip is cut out. */
  const ChipPadding: real := 0.25

  /** The arguments of one `createFaceTemplateFromBitmap` / `createAlignedFace` call. */
  datatype ChipRequest = ChipRequest(
    context: Handle, bitmap: Bitmap,
    left: int, top: int, right: int, bottom: int,
    size: int, padding: real)

  /** One call into native code, as a wrapper issues it. */
  datatype NativeCall =
    | CreateContext(modelPaths: seq<string>)
    | ChipCall(request: ChipRequest)
    | DestroyContext(context: Handle)

  /** The request both wrappers build from an integer rectangle: the bounds in the order
      left, top, right, bottom, with chip size 150 and padding 0.25. */
  function RequestFor(context: Handle, bitmap: Bitmap, r: Rect): (q: ChipRequest)
    ensures q.context == context && q.bitmap == bitmap
    ensures q.left == r.left && q.top == r.top && q.right == r.right && q.bottom == r.bottom
    ensures q.size == 150 && q.padding == 0.25
  {
    ChipRequest(context, bitmap, r.left, r.top, r.right, r.bottom, ChipSize, ChipPadding)
  }

  function DestroyCount(calls: seq<NativeCall>): (n: nat)
    ensures n <= |calls|
  {
    if calls == [] then 0
    else DestroyCount(calls[..|calls| - 1]) + (if calls[|calls| - 1].DestroyContext? then 1 else 0)
  }

  /** The life of a wrapper as its calls show it: the context was created first, every
      later call works on that same context, and it was destroyed at most once, as the very
      last call, exactly when the wrapper is closed. */
  ghost predicate LifecycleLog(calls: seq<NativeCall>, modelPaths: seq<string>, context: Handle, open: bool) {
    && |calls| >= 1
    && calls[0] == CreateContext(modelPaths)
    && (forall i :: 1 <= i < |calls| ==>
          (calls[i].ChipCall? && calls[i].request.context == context) || calls[i] == DestroyContext(context))
    && (forall i :: 1 <= i < |calls| - 1 ==> calls[i].ChipCall?)
    && (open <==> calls[|calls| - 1] != DestroyContext(context))
  }

  /** Over any such history the native context is destroyed at most once, and exactly once
      if the wrapper is closed. */
  lemma {:induction false} DestroyedAtMostOnce(calls: seq<NativeCall>, modelPaths: seq<string>, context: Handle, open: bool)
    requires LifecycleLog(calls, modelPaths, context, open)
    ensures DestroyCount(calls) == if open then 0 else 1
  {
    ChipCallsDestroyNothing(calls[..|calls| - 1]);
  }

  lemma {:induction false} ChipCallsDestroyNothing(calls: seq<NativeCall>)
    requires forall i :: 1 <= i < |calls| ==> calls[i].ChipCall?
    requires |calls| >= 1 ==> calls[0].CreateContext?
    ensures DestroyCount(calls) == 0
    decreases |calls|
  {
    if calls != [] {
      ChipCallsDestroyNothing(calls[..|calls| - 1]);
    }
  }
}
