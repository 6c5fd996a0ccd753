/** The records the OpenXR/OpenGL bridge keeps per eye, the events of its call trace, and
    the two vector idioms it uses on them: `resize` and the count-then-fill enumeration. */
module GlState {

  import opened OpenXR

  /** An opaque runtime handle (XrSwapchain, XrSpace); 0 is XR_NULL_HANDLE. */
  type Handle = nat

  /** XrSwapchainImageOpenGLKHR: the GL texture name of one swapchain image. */
  datatype SwapchainImage = SwapchainImage(image: nat)

  const EMPTY_SWAPCHAIN_IMAGE := SwapchainImage(0)

  /** SViewData: one eye's swapchain, its framebuffer object and its image set. */
  datatype ViewData = ViewData(swapchain: Handle, frameBuffer: nat, swapchainImages: seq<SwapchainImage>)

  const EMPTY_VIEW_DATA := ViewData(0, 0, [])

  datatype Extent2Di = Extent2Di(width: int32, height: int32)
  datatype Offset2Di = Offset2Di(x: int32, y: int32)
  datatype Rect2Di = Rect2Di(offset: Offset2Di, extent: Extent2Di)

  /** XrSwapchainSubImage. */
  datatype SwapchainSubImage = SwapchainSubImage(swapchain: Handle, imageRect: Rect2Di, imageArrayIndex: nat)

  /** XrCompositionLayerProjectionView (the `next` chain is always empty here). */
  datatype ProjectionView = ProjectionView(structureType: int, pose: Posef, fov: Fovf, subImage: SwapchainSubImage)

  const EMPTY_PROJECTION_VIEW :=
    ProjectionView(0, ZERO_POSE, ZERO_FOV, SwapchainSubImage(0, Rect2Di(Offset2Di(0, 0), Extent2Di(0, 0)), 0))

  /** XrCompositionLayerProjection: its views are the bridge's projection-view vector,
      which it reaches through a pointer, so only the count is a value of its own. */
  datatype ProjectionLayer = ProjectionLayer(structureType: int, layerFlags: nat, space: Handle, viewCount: uint32)

  /** One call from the bridge into the runtime or the GL driver. */
  datatype Call =
    | EnumerateApiLayerProperties(capacity: nat)
    | EnumerateInstanceExtensionProperties(capacity: nat)
    | CreateInstance(applicationName: string, applicationVersion: nat, engineName: string,
                     engineVersion: nat, enabledExtensions: seq<string>)
    | GetSystem(formFactor: int)
    | GetInstanceProcAddr(name: string)
    | GetOpenGLGraphicsRequirements
    | CreateSession
    | CreateReferenceSpace(referenceSpaceType: int, poseInReferenceSpace: Posef)
    | EnumerateViewConfigurationViews(viewConfigurationType: int, capacity: nat)
    | CreateSwapchain(width: uint32, height: uint32, sampleCount: nat)
    | EnumerateSwapchainImages(swapchain: Handle, capacity: nat)
    | GenFramebuffer
    | PollEvent
    | BeginSession(primaryViewConfigurationType: int)
    | EndSession
    | WaitFrame
    | BeginFrame
    | LocateViews(capacity: nat)
    | AcquireSwapchainImage(swapchain: Handle)
    | WaitSwapchainImage(swapchain: Handle, timeout: int)
      /** bind the eye's framebuffer, attach the acquired image, set the viewport, invoke the
          draw callback with the matrices built from `fov` and `pose`, unbind, glFinish */
    | RenderEye(frameBuffer: nat, image: nat, viewportWidth: nat, viewportHeight: nat, fov: Fovf, pose: Posef)
    | ReleaseSwapchainImage(swapchain: Handle)
    | BlitToWindow(frameBuffer: nat, windowWidth: nat, windowHeight: nat)
      /** xrEndFrame; `projectionViews` is what the submitted layers point at */
    | EndFrame(displayTime: int, environmentBlendMode: int, layerCount: uint32, projectionViews: seq<ProjectionView>)
    | DeleteFramebuffer(frameBuffer: nat)
    | DestroyInstance

  /** Appending to a log in two steps is appending once. */
  lemma AppendTwice<T>(a: seq<T>, b: seq<T>, c: seq<T>)
    ensures (a + b) + c == a + (b + c)
  {
  }

  /** The calls of a run of steps, step after step. */
  function Flatten<T>(steps: seq<seq<T>>): seq<T>
    decreases |steps|
  {
    if steps == [] then [] else Flatten(steps[..|steps| - 1]) + steps[|steps| - 1]
  }

  /** Running one more step appends that step's calls. */
  lemma FlattenStep<T>(steps: seq<seq<T>>, j: nat)
    requires j < |steps|
    ensures Flatten(steps[..j + 1]) == Flatten(steps[..j]) + steps[j]
  {
    assert steps[..j + 1][..j] == steps[..j];
  }

  /** The calls of the first k of four steps. */
  lemma FlattenFour<T>(steps: seq<seq<T>>)
    requires |steps| == 4
    ensures Flatten(steps[..0]) == []
    ensures Flatten(steps[..1]) == steps[0]
    ensures Flatten(steps[..2]) == steps[0] + steps[1]
    ensures Flatten(steps[..3]) == steps[0] + steps[1] + steps[2]
    ensures Flatten(steps[..4]) == steps[0] + steps[1] + steps[2] + steps[3]
  {
    assert steps[..0] == [];
    FlattenStep(steps, 0);
    FlattenStep(steps, 1);
    FlattenStep(steps, 2);
    FlattenStep(steps, 3);
  }

  /** Running two runs of steps one after the other. */
  lemma {:induction false} FlattenAppend<T>(a: seq<seq<T>>, b: seq<seq<T>>)
    ensures Flatten(a + b) == Flatten(a) + Flatten(b)
    decreases |b|
  {
    if b == [] {
      assert a + b == a;
    } else {
      var b' := b[..|b| - 1];
      assert (a + b)[..|a + b| - 1] == a + b';
      assert (a + b)[|a + b| - 1] == b[|b| - 1];
      FlattenAppend(a, b');
    }
  }

  /** The number of elements of `s` that satisfy `p`. */
  function Count<T>(s: seq<T>, p: T -> bool): (n: nat)
    ensures n <= |s|
  {
    if s == [] then 0 else (if p(s[0]) then 1 else 0) + Count(s[1..], p)
  }

  lemma {:induction false} CountAppend<T>(a: seq<T>, b: seq<T>, p: T -> bool)
    ensures Count(a + b, p) == Count(a, p) + Count(b, p)
    decreases |a|
  {
    if a == [] {
      assert a + b == b;
    } else {
      assert (a + b)[1..] == a[1..] + b;
      CountAppend(a[1..], b, p);
    }
  }

  lemma {:induction false} CountNone<T>(s: seq<T>, p: T -> bool)
    requires forall i :: 0 <= i < |s| ==> !p(s[i])
    ensures Count(s, p) == 0
    decreases |s|
  {
    if s != [] {
      assert forall i :: 0 <= i < |s[1..]| ==> !p(s[1..][i]) by {
        forall i | 0 <= i < |s[1..]| ensures !p(s[1..][i]) {
          assert s[1..][i] == s[i + 1];
        }
      }
      CountNone(s[1..], p);
    }
  }

  /** `check`: only XR_SUCCESS itself lets the bridge go on; a qualified success such as
      XR_SESSION_LOSS_PENDING is reported and treated like an error. */
  function Check(r: XrResult): (ok: bool)
    ensures ok ==> Succeeded(r)
    ensures ok <==> UnqualifiedSuccess(r)
  {
    r == XR_SUCCESS
  }

  /** std::vector::resize: keeps the first `n` elements and pads with value-initialised ones. */
  function Resize<T>(s: seq<T>, n: nat, default: T): (r: seq<T>)
    ensures |r| == n
    ensures forall i :: 0 <= i < n ==> r[i] == if i < |s| then s[i] else default
  {
    if n <= |s| then s[..n] else s + seq(n - |s|, _ => default)
  }

  /** The two-call enumeration idiom: ask for the count with no buffer; only if that
      passes `check` with a count above zero, resize the buffer to the count and ask the
      runtime to fill it. `filled` is what a fill reporting success writes; a failed fill
      leaves the resized buffer as it was. */
  function CountThenFill<T>(buffer: seq<T>, countResult: XrResult, count: nat,
                            fillResult: XrResult, filled: seq<T>, default: T): (r: seq<T>)
    requires |filled| == count
    ensures countResult == XR_SUCCESS && count > 0 ==> |r| == count
    ensures !(countResult == XR_SUCCESS && count > 0) ==> r == buffer
    ensures countResult == XR_SUCCESS && count > 0 && Succeeded(fillResult) ==> r == filled
    ensures countResult == XR_SUCCESS && count > 0 && Failed(fillResult) ==>
      forall i :: 0 <= i < count ==> r[i] == if i < |buffer| then buffer[i] else default
  {
    if countResult == XR_SUCCESS && count > 0 then
      if Succeeded(fillResult) then filled else Resize(buffer, count, default)
    else buffer
  }

  /** The calls one count-then-fill makes: always the count query with capacity 0, then
      the fill with capacity `count` only when the count query passed `check` with a
      count above zero. */
  function CountThenFillCalls(query: nat -> Call, countResult: XrResult, count: nat): (calls: seq<Call>)
    ensures |calls| == if countResult == XR_SUCCESS && count > 0 then 2 else 1
    ensures calls[0] == query(0)
    ensures |calls| == 2 ==> calls[1] == query(count)
  {
    [query(0)] + if countResult == XR_SUCCESS && count > 0 then [query(count)] else []
  }
}
