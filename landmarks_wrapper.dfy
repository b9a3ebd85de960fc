/** `DlibLandmarks` (Kotlin): a handle on the native landmark detector that cuts aligned
    face chips out of a bitmap until it is closed. */
module LandmarksWrapper {
  import opened Outcomes
  import opened NativeBridge

  /** The native `createAlignedFace`, which returns the packed chip or throws. Its inside
      is modelled on its own, in the native layer. */
  type ChipAligner = ChipRequest -> Result<seq<real>>

  class DlibLandmarks {
    /** The native aligner behind the `external fun`. */
    const align: ChipAligner
    /** The model path the native context was created from. */
    ghost const modelPath: string
    /** The context `createNativeContext` returned at construction. */
    ghost const created: Handle

    var nativeContext: Option<Handle>
    /** Every native call this object has made, in order. */
    ghost var calls: seq<NativeCall>

    ghost predicate Valid()
      reads this
    {
      && LifecycleLog(calls, [modelPath], created, nativeContext.Some?)
      && (nativeContext.Some? ==> nativeContext.value == created)
    }

    /** `init`: `nativeContext = createNativeContext(modelPath)`, where `context` is what that
        native call returned. */
    constructor (modelPath: string, context: Handle, align: ChipAligner)
      ensures Valid()
      ensures nativeContext == Some(context) && created == context && this.align == align
      ensures calls == [CreateContext([modelPath])]
    {
      this.align := align;
      this.modelPath := modelPath;
      created := context;
      nativeContext := Some(context);
      calls := [CreateContext([modelPath])];
    }

    /** `createAlignedFace(image, rect)`: `Library closed` with no native call once closed;
        otherwise one native call on the context made at construction, with the rectangle's
        sides in the order left, top, right, bottom, size 150 and padding 0.25. */
    method CreateAlignedFace(image: Bitmap, rect: Rect) returns (r: Result<seq<real>>)
      requires Valid()
      modifies this`calls
      ensures Valid()
      ensures old(nativeContext).None? ==> r == Failure(IllegalState(LibraryClosed)) && calls == old(calls)
      ensures old(nativeContext).Some? ==>
        && r == align(RequestFor(created, image, rect))
        && calls == old(calls) + [ChipCall(RequestFor(created, image, rect))]
    {
      match nativeContext
      case None =>
        r := Failure(IllegalState(LibraryClosed));
      case Some(context) =>
        var request := RequestFor(context, image, rect);
        calls := calls + [ChipCall(request)];
        r := align(request);
    }

    /** `close()`: destroys the context if there still is one, then forgets it. */
    method Close()
      requires Valid()
      modifies this`nativeContext, this`calls
      ensures Valid() && nativeContext == None
      ensures old(nativeContext).Some? ==> calls == old(calls) + [DestroyContext(old(nativeContext).value)]
      ensures old(nativeContext).None? ==> calls == old(calls)
    {
      if nativeContext.Some? {
        calls := calls + [DestroyContext(nativeContext.value)];
      }
      nativeContext := None;
    }
  }

  /** A wrapper used, closed twice and used again: the first chip comes from the context
      made at construction, the call after closing fails with `Library closed`, and the
      context was destroyed exactly once. */
  method CloseTwice(modelPath: string, context: Handle, align: ChipAligner, image: Bitmap, rect: Rect)
    returns (first: Result<seq<real>>, afterClose: Result<seq<real>>, ghost destroyed: nat)
    ensures first == align(RequestFor(context, image, rect))
    ensures afterClose == Failure(IllegalState(LibraryClosed))
    ensures destroyed == 1
  {
    var w := new DlibLandmarks(modelPath, context, align);
    first := w.CreateAlignedFace(image, rect);
    w.Close();
    w.Close();
    afterClose := w.CreateAlignedFace(image, rect);
    DestroyedAtMostOnce(w.calls, [modelPath], context, false);
    destroyed := DestroyCount(w.calls);
  }
}
