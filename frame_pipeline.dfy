/** One call of the bridge's `draw`: the frame loop of chapter 10 of the OpenXR 1.0
    specification as the bridge runs it. A renderable session state lets the frame start;
    a frame that waits successfully is begun and ended exactly once; when the runtime asks
    for rendering, the views are located and every located eye acquires, waits for, draws
    into and releases its swapchain image, and eye 0 is copied to the window. This module
    states the calls and the new projection views; the bridge's `Draw` method is proved to
    produce exactly those. */
module FramePipeline {

  import opened OpenXR
  import opened GlState

  /** The session states in which `draw` runs a frame at all. */
  predicate IsRenderable(s: SessionState)
  {
    s == XR_SESSION_STATE_READY || s == XR_SESSION_STATE_SYNCHRONIZED ||
    s == XR_SESSION_STATE_VISIBLE || s == XR_SESSION_STATE_FOCUSED
  }

  /** What the runtime answers during one frame: the xrWaitFrame result and frame state,
      the two xrLocateViews calls (count query, then fill), and the image index each
      xrAcquireSwapchainImage leaves in the bridge's index variable, eye by eye. The
      results of begin, acquire, image wait, release and end are never looked at. */
  datatype FrameInputs = FrameInputs(
    waitResult: XrResult, frameState: FrameState,
    locateCountResult: XrResult, locateCount: uint32, locateFillResult: XrResult, located: seq<View>,
    imageIndices: seq<nat>)

  /** A value-initialised XrView. */
  const DEFAULT_VIEW := View(ZERO_POSE, ZERO_FOV)

  /** The size of the located-view buffer: the count the first xrLocateViews wrote, or the
      initial 0 when that call failed. */
  function LocateCapacity(inputs: FrameInputs): nat
  {
    if Succeeded(inputs.locateCountResult) then inputs.locateCount else 0
  }

  /** The runtime fills exactly the buffer it was given, and one image index is supplied per eye. */
  predicate WellFormed(inputs: FrameInputs)
  {
    |inputs.located| == LocateCapacity(inputs) && |inputs.imageIndices| == LocateCapacity(inputs)
  }

  /** The views the per-eye loop walks: what the second xrLocateViews wrote, or the
      value-initialised buffer when that call failed. */
  function EyeViews(inputs: FrameInputs): (eyes: seq<View>)
    requires WellFormed(inputs)
    ensures |eyes| == LocateCapacity(inputs)
  {
    if Succeeded(inputs.locateFillResult) then inputs.located else seq(LocateCapacity(inputs), _ => DEFAULT_VIEW)
  }

  /** Whether `draw` reaches the rendering branch. */
  predicate Renders(state: SessionState, inputs: FrameInputs)
  {
    IsRenderable(state) && UnqualifiedSuccess(inputs.waitResult) && inputs.frameState.shouldRender
  }

  /** Every acquired index names an image of its eye's swapchain. */
  predicate IndicesInRange(viewDatas: seq<ViewData>, indices: seq<nat>, n: nat)
  {
    n <= |viewDatas| && n <= |indices| &&
    forall i :: 0 <= i < n ==> indices[i] < |viewDatas[i].swapchainImages|
  }

  /** What `draw` relies on without checking it: view 0 exists once a frame has been
      waited for; when rendering, eye 0 exists for the copy to the window, and every
      located eye has a view-data entry, a projection view and an image for its index. */
  predicate DrawRequirements(state: SessionState, views: seq<ViewConfigurationView>, viewDatas: seq<ViewData>,
                             projectionViews: seq<ProjectionView>, inputs: FrameInputs)
  {
    WellFormed(inputs) &&
    (IsRenderable(state) && UnqualifiedSuccess(inputs.waitResult) ==> |views| > 0) &&
    (Renders(state, inputs) ==>
      |viewDatas| > 0 && LocateCapacity(inputs) <= |projectionViews| &&
      IndicesInRange(viewDatas, inputs.imageIndices, LocateCapacity(inputs)))
  }

  /** The first |eyes| projection views take the located pose and field of view; nothing
      else in any projection view changes. */
  function PoseUpdated(projectionViews: seq<ProjectionView>, eyes: seq<View>): (r: seq<ProjectionView>)
    requires |eyes| <= |projectionViews|
    ensures |r| == |projectionViews|
    ensures forall i :: 0 <= i < |r| ==>
      r[i].structureType == projectionViews[i].structureType && r[i].subImage == projectionViews[i].subImage
    ensures forall i :: 0 <= i < |eyes| ==> r[i].pose == eyes[i].pose && r[i].fov == eyes[i].fov
    ensures forall i :: |eyes| <= i < |r| ==> r[i] == projectionViews[i]
  {
    seq(|projectionViews|, i requires 0 <= i < |projectionViews| =>
      if i < |eyes| then projectionViews[i].(pose := eyes[i].pose, fov := eyes[i].fov) else projectionViews[i])
  }

  /** Updating one more eye extends the projection-view update by one entry. */
  lemma PoseUpdatedStep(projectionViews: seq<ProjectionView>, eyes: seq<View>, i: nat)
    requires i < |eyes| <= |projectionViews|
    ensures PoseUpdated(projectionViews, eyes[..i])[i := projectionViews[i].(fov := eyes[i].fov, pose := eyes[i].pose)]
      == PoseUpdated(projectionViews, eyes[..i + 1])
  {
    var a := PoseUpdated(projectionViews, eyes[..i])[i := projectionViews[i].(fov := eyes[i].fov, pose := eyes[i].pose)];
    var b := PoseUpdated(projectionViews, eyes[..i + 1]);
    assert |a| == |b|;
    forall k | 0 <= k < |a| ensures a[k] == b[k] {
      if k < i {
        assert eyes[..i][k] == eyes[k] == eyes[..i + 1][k];
      }
    }
  }

  /** The calls for one eye, on that eye's swapchain and framebuffer. */
  function EyeCalls(vd: ViewData, index: nat, width: nat, height: nat, eye: View): seq<Call>
    requires index < |vd.swapchainImages|
  {
    [AcquireSwapchainImage(vd.swapchain),
     WaitSwapchainImage(vd.swapchain, XR_INFINITE_DURATION),
     RenderEye(vd.frameBuffer, vd.swapchainImages[index].image, width, height, eye.fov, eye.pose),
     ReleaseSwapchainImage(vd.swapchain)]
  }

  /** The calls for eyes 0 .. n-1, in order. */
  function EyesCalls(viewDatas: seq<ViewData>, indices: seq<nat>, width: nat, height: nat,
                     eyes: seq<View>, n: nat): seq<Call>
    requires n <= |eyes| && IndicesInRange(viewDatas, indices, n)
    decreases n
  {
    if n == 0 then []
    else EyesCalls(viewDatas, indices, width, height, eyes, n - 1) +
         EyeCalls(viewDatas[n - 1], indices[n - 1], width, height, eyes[n - 1])
  }

  /** The calls of the rendering branch: locate the views, render every eye, copy eye 0. */
  function RenderCalls(views: seq<ViewConfigurationView>, viewDatas: seq<ViewData>, inputs: FrameInputs): seq<Call>
    requires |views| > 0 && |viewDatas| > 0 && WellFormed(inputs)
    requires IndicesInRange(viewDatas, inputs.imageIndices, LocateCapacity(inputs))
  {
    var width, height := views[0].maxImageRectWidth, views[0].maxImageRectHeight;
    var n := LocateCapacity(inputs);
    [LocateViews(0), LocateViews(n)] +
    EyesCalls(viewDatas, inputs.imageIndices, width, height, EyeViews(inputs), n) +
    [BlitToWindow(viewDatas[0].frameBuffer, width, height)]
  }

  /** The projection views after `draw`. */
  function DrawnViews(state: SessionState, projectionViews: seq<ProjectionView>, inputs: FrameInputs)
    : (r: seq<ProjectionView>)
    requires WellFormed(inputs)
    requires Renders(state, inputs) ==> LocateCapacity(inputs) <= |projectionViews|
    ensures |r| == |projectionViews|
  {
    if Renders(state, inputs) then PoseUpdated(projectionViews, EyeViews(inputs)) else projectionViews
  }

  /** The xrEndFrame call: the predicted display time, the opaque blend mode, and the
      layers only when rendering (their count truncated to 32 bits as the cast does). */
  function EndFrameCall(state: SessionState, projectionViews: seq<ProjectionView>, layerCount: nat,
                        inputs: FrameInputs): Call
    requires WellFormed(inputs)
    requires Renders(state, inputs) ==> LocateCapacity(inputs) <= |projectionViews|
  {
    var submitted := inputs.frameState.shouldRender;
    EndFrame(inputs.frameState.predictedDisplayTime, XR_ENVIRONMENT_BLEND_MODE_OPAQUE,
             if submitted then ToUInt32(layerCount) else 0,
             if submitted then DrawnViews(state, projectionViews, inputs) else [])
  }

  /** Every call one `draw` makes, in order. `layerCount` is the number of layer pointers. */
  function DrawCalls(state: SessionState, views: seq<ViewConfigurationView>, viewDatas: seq<ViewData>,
                     projectionViews: seq<ProjectionView>, layerCount: nat, inputs: FrameInputs): (calls: seq<Call>)
    requires DrawRequirements(state, views, viewDatas, projectionViews, inputs)
    ensures calls == [] <==> !IsRenderable(state)
    ensures calls != [] ==> calls[0] == WaitFrame
  {
    if !IsRenderable(state) then []
    else if !UnqualifiedSuccess(inputs.waitResult) then [WaitFrame]
    else
      [WaitFrame, BeginFrame] +
      (if inputs.frameState.shouldRender then RenderCalls(views, viewDatas, inputs) else []) +
      [EndFrameCall(state, projectionViews, layerCount, inputs)]
  }

  predicate IsWaitFrame(c: Call) { c.WaitFrame? }
  predicate IsBeginFrame(c: Call) { c.BeginFrame? }
  predicate IsEndFrame(c: Call) { c.EndFrame? }

  /** Eye i's four calls sit at positions 4i .. 4i+3. */
  lemma {:induction false} EyesCallsLayout(viewDatas: seq<ViewData>, indices: seq<nat>, width: nat, height: nat,
                                           eyes: seq<View>, n: nat)
    requires n <= |eyes| && IndicesInRange(viewDatas, indices, n)
    ensures |EyesCalls(viewDatas, indices, width, height, eyes, n)| == 4 * n
    ensures forall i :: 0 <= i < n ==>
      EyesCalls(viewDatas, indices, width, height, eyes, n)[4 * i..4 * i + 4] ==
      EyeCalls(viewDatas[i], indices[i], width, height, eyes[i])
    decreases n
  {
    if n > 0 {
      EyesCallsLayout(viewDatas, indices, width, height, eyes, n - 1);
      var before := EyesCalls(viewDatas, indices, width, height, eyes, n - 1);
      var last := EyeCalls(viewDatas[n - 1], indices[n - 1], width, height, eyes[n - 1]);
      var all := before + last;
      forall i | 0 <= i < n
        ensures all[4 * i..4 * i + 4] == EyeCalls(viewDatas[i], indices[i], width, height, eyes[i])
      {
        if i < n - 1 {
          assert all[4 * i..4 * i + 4] == before[4 * i..4 * i + 4];
        } else {
          assert all[4 * i..4 * i + 4] == last;
        }
      }
    }
  }

  /** The kinds of call one eye makes. */
  predicate IsEyeCall(c: Call)
  {
    c.AcquireSwapchainImage? || c.WaitSwapchainImage? || c.RenderEye? || c.ReleaseSwapchainImage?
  }

  /** The eye calls hold no frame call. */
  lemma {:induction false} EyesCallsHoldNoFrameCall(viewDatas: seq<ViewData>, indices: seq<nat>, width: nat,
                                                    height: nat, eyes: seq<View>, n: nat)
    requires n <= |eyes| && IndicesInRange(viewDatas, indices, n)
    ensures forall i :: 0 <= i < |EyesCalls(viewDatas, indices, width, height, eyes, n)| ==>
      IsEyeCall(EyesCalls(viewDatas, indices, width, height, eyes, n)[i])
    ensures Count(EyesCalls(viewDatas, indices, width, height, eyes, n), IsWaitFrame) == 0
    ensures Count(EyesCalls(viewDatas, indices, width, height, eyes, n), IsBeginFrame) == 0
    ensures Count(EyesCalls(viewDatas, indices, width, height, eyes, n), IsEndFrame) == 0
    decreases n
  {
    var all := EyesCalls(viewDatas, indices, width, height, eyes, n);
    if n > 0 {
      var before := EyesCalls(viewDatas, indices, width, height, eyes, n - 1);
      var last := EyeCalls(viewDatas[n - 1], indices[n - 1], width, height, eyes[n - 1]);
      EyesCallsHoldNoFrameCall(viewDatas, indices, width, height, eyes, n - 1);
      forall i | 0 <= i < |all| ensures IsEyeCall(all[i]) {
        if i < |before| {
          assert all[i] == before[i];
        } else {
          assert all[i] == last[i - |before|];
        }
      }
    }
    CountNone(all, IsWaitFrame);
    CountNone(all, IsBeginFrame);
    CountNone(all, IsEndFrame);
  }

  /** Outside READY, SYNCHRONIZED, VISIBLE and FOCUSED nothing is called and nothing
      changes; a wait that does not return XR_SUCCESS itself ends the frame there. */
  lemma DrawGate(state: SessionState, views: seq<ViewConfigurationView>, viewDatas: seq<ViewData>,
                 projectionViews: seq<ProjectionView>, layerCount: nat, inputs: FrameInputs)
    requires DrawRequirements(state, views, viewDatas, projectionViews, inputs)
    ensures !IsRenderable(state) ==> DrawCalls(state, views, viewDatas, projectionViews, layerCount, inputs) == []
    ensures IsRenderable(state) && !UnqualifiedSuccess(inputs.waitResult) ==>
      DrawCalls(state, views, viewDatas, projectionViews, layerCount, inputs) == [WaitFrame]
    ensures !(IsRenderable(state) && UnqualifiedSuccess(inputs.waitResult)) ==>
      DrawnViews(state, projectionViews, inputs) == projectionViews
  {
  }

  /** The rendering branch makes no frame call of its own. */
  lemma RenderCallsHoldNoFrameCall(views: seq<ViewConfigurationView>, viewDatas: seq<ViewData>, inputs: FrameInputs)
    requires |views| > 0 && |viewDatas| > 0 && WellFormed(inputs)
    requires IndicesInRange(viewDatas, inputs.imageIndices, LocateCapacity(inputs))
    ensures Count(RenderCalls(views, viewDatas, inputs), IsWaitFrame) == 0
    ensures Count(RenderCalls(views, viewDatas, inputs), IsBeginFrame) == 0
    ensures Count(RenderCalls(views, viewDatas, inputs), IsEndFrame) == 0
  {
    var n := LocateCapacity(inputs);
    var width, height := views[0].maxImageRectWidth, views[0].maxImageRectHeight;
    var eyesCalls := EyesCalls(viewDatas, inputs.imageIndices, width, height, EyeViews(inputs), n);
    EyesCallsHoldNoFrameCall(viewDatas, inputs.imageIndices, width, height, EyeViews(inputs), n);
    var locate := [LocateViews(0), LocateViews(n)];
    var blit := [BlitToWindow(viewDatas[0].frameBuffer, width, height)];
    assert RenderCalls(views, viewDatas, inputs) == locate + eyesCalls + blit;
    CountAppend(locate, eyesCalls, IsWaitFrame);
    CountAppend(locate, eyesCalls, IsBeginFrame);
    CountAppend(locate, eyesCalls, IsEndFrame);
    CountAppend(locate + eyesCalls, blit, IsWaitFrame);
    CountAppend(locate + eyesCalls, blit, IsBeginFrame);
    CountAppend(locate + eyesCalls, blit, IsEndFrame);
  }

  /** Counting over a wait, a begin, calls that hold none of the counted kind, and one end. */
  lemma FrameCount(middle: seq<Call>, end: Call, p: Call -> bool)
    requires Count(middle, p) == 0
    ensures Count([WaitFrame, BeginFrame] + middle + [end], p)
         == Count([WaitFrame, BeginFrame], p) + (if p(end) then 1 else 0)
  {
    CountAppend([WaitFrame, BeginFrame], middle, p);
    CountAppend([WaitFrame, BeginFrame] + middle, [end], p);
    assert Count([end], p) == if p(end) then 1 else 0 by {
      assert [end][1..] == [];
    }
  }

  /** A frame that was waited for is begun exactly once and ended exactly once, whether or
      not rendering was asked for: wait first, begin second, end last. */
  lemma FramePairing(state: SessionState, views: seq<ViewConfigurationView>, viewDatas: seq<ViewData>,
                     projectionViews: seq<ProjectionView>, layerCount: nat, inputs: FrameInputs)
    requires DrawRequirements(state, views, viewDatas, projectionViews, inputs)
    requires IsRenderable(state) && UnqualifiedSuccess(inputs.waitResult)
    ensures var calls := DrawCalls(state, views, viewDatas, projectionViews, layerCount, inputs);
      |calls| >= 3 && calls[0] == WaitFrame && calls[1] == BeginFrame && calls[|calls| - 1].EndFrame? &&
      Count(calls, IsWaitFrame) == 1 && Count(calls, IsBeginFrame) == 1 && Count(calls, IsEndFrame) == 1
  {
    var calls := DrawCalls(state, views, viewDatas, projectionViews, layerCount, inputs);
    var middle := if inputs.frameState.shouldRender then RenderCalls(views, viewDatas, inputs) else [];
    var end := EndFrameCall(state, projectionViews, layerCount, inputs);
    assert calls == [WaitFrame, BeginFrame] + middle + [end];
    if inputs.frameState.shouldRender {
      RenderCallsHoldNoFrameCall(views, viewDatas, inputs);
    }
    FrameCount(middle, end, IsWaitFrame);
    FrameCount(middle, end, IsBeginFrame);
    FrameCount(middle, end, IsEndFrame);
    assert Count([WaitFrame, BeginFrame], IsWaitFrame) == 1;
    assert Count([WaitFrame, BeginFrame], IsBeginFrame) == 1;
    assert Count([WaitFrame, BeginFrame], IsEndFrame) == 0;
  }

  /** The shape of a rendered frame's calls. */
  lemma RenderedCalls(state: SessionState, views: seq<ViewConfigurationView>, viewDatas: seq<ViewData>,
                      projectionViews: seq<ProjectionView>, layerCount: nat, inputs: FrameInputs)
    requires DrawRequirements(state, views, viewDatas, projectionViews, inputs)
    requires Renders(state, inputs)
    ensures DrawCalls(state, views, viewDatas, projectionViews, layerCount, inputs) ==
      [WaitFrame, BeginFrame, LocateViews(0), LocateViews(LocateCapacity(inputs))] +
      EyesCalls(viewDatas, inputs.imageIndices, views[0].maxImageRectWidth, views[0].maxImageRectHeight,
                EyeViews(inputs), LocateCapacity(inputs)) +
      [BlitToWindow(viewDatas[0].frameBuffer, views[0].maxImageRectWidth, views[0].maxImageRectHeight),
       EndFrame(inputs.frameState.predictedDisplayTime, XR_ENVIRONMENT_BLEND_MODE_OPAQUE,
                ToUInt32(layerCount), DrawnViews(state, projectionViews, inputs))]
  {
    var width, height := views[0].maxImageRectWidth, views[0].maxImageRectHeight;
    var n := LocateCapacity(inputs);
    var eyes := EyesCalls(viewDatas, inputs.imageIndices, width, height, EyeViews(inputs), n);
    var end := EndFrameCall(state, projectionViews, layerCount, inputs);
    assert end == EndFrame(inputs.frameState.predictedDisplayTime, XR_ENVIRONMENT_BLEND_MODE_OPAQUE,
                           ToUInt32(layerCount), DrawnViews(state, projectionViews, inputs));
    assert DrawCalls(state, views, viewDatas, projectionViews, layerCount, inputs) ==
      [WaitFrame, BeginFrame] + ([LocateViews(0), LocateViews(n)] + eyes + [BlitToWindow(viewDatas[0].frameBuffer, width, height)]) + [end];
    Regroup([WaitFrame, BeginFrame], [LocateViews(0), LocateViews(n)], eyes,
            [BlitToWindow(viewDatas[0].frameBuffer, width, height)], [end]);
  }

  /** Regrouping the pieces of a concatenation. */
  lemma Regroup<T>(a: seq<T>, b: seq<T>, m: seq<T>, c: seq<T>, d: seq<T>)
    ensures a + (b + m + c) + d == (a + b) + m + (c + d)
  {
  }

  /** Where the parts of a rendered frame's log sit: four leading calls, four per eye,
      two trailing calls. */
  lemma FourPerEye<T>(head: seq<T>, middle: seq<T>, tail: seq<T>, n: nat)
    requires |head| == 4 && |middle| == 4 * n && |tail| == 2
    ensures var all := head + middle + tail;
      |all| == 4 * n + 6 && all[2] == head[2] && all[3] == head[3] &&
      (forall i :: 0 <= i < n ==> all[4 + 4 * i..8 + 4 * i] == middle[4 * i..4 * i + 4]) &&
      all[4 * n + 4] == tail[0] && all[4 * n + 5] == tail[1]
  {
    var all := head + middle + tail;
    forall i | 0 <= i < n ensures all[4 + 4 * i..8 + 4 * i] == middle[4 * i..4 * i + 4] {
      var slot, eye := all[4 + 4 * i..8 + 4 * i], middle[4 * i..4 * i + 4];
      forall k | 0 <= k < 4 ensures slot[k] == eye[k] {
        assert all[4 + 4 * i + k] == middle[4 * i + k];
      }
    }
  }

  /** The rendering branch: the two locate calls, four calls per located eye, one copy of
      eye 0 to the window at view 0's maximum size, then the end of the frame with every
      layer pointer and the predicted display time. */
  lemma RenderedFrameLayout(state: SessionState, views: seq<ViewConfigurationView>, viewDatas: seq<ViewData>,
                            projectionViews: seq<ProjectionView>, layerCount: nat, inputs: FrameInputs)
    requires DrawRequirements(state, views, viewDatas, projectionViews, inputs)
    requires Renders(state, inputs)
    ensures var calls := DrawCalls(state, views, viewDatas, projectionViews, layerCount, inputs);
      var n := LocateCapacity(inputs);
      |calls| == 4 * n + 6 &&
      calls[2] == LocateViews(0) && calls[3] == LocateViews(n) &&
      (forall i :: 0 <= i < n ==>
        calls[4 + 4 * i..8 + 4 * i] ==
        EyeCalls(viewDatas[i], inputs.imageIndices[i], views[0].maxImageRectWidth, views[0].maxImageRectHeight,
                 EyeViews(inputs)[i])) &&
      calls[4 * n + 4] == BlitToWindow(viewDatas[0].frameBuffer, views[0].maxImageRectWidth, views[0].maxImageRectHeight) &&
      calls[4 * n + 5] == EndFrame(inputs.frameState.predictedDisplayTime, XR_ENVIRONMENT_BLEND_MODE_OPAQUE,
                                   ToUInt32(layerCount), DrawnViews(state, projectionViews, inputs))
  {
    var n := LocateCapacity(inputs);
    var width, height := views[0].maxImageRectWidth, views[0].maxImageRectHeight;
    var eyes := EyeViews(inputs);
    var eyesCalls := EyesCalls(viewDatas, inputs.imageIndices, width, height, eyes, n);
    EyesCallsLayout(viewDatas, inputs.imageIndices, width, height, eyes, n);
    RenderedCalls(state, views, viewDatas, projectionViews, layerCount, inputs);
    var calls := DrawCalls(state, views, viewDatas, projectionViews, layerCount, inputs);
    var head := [WaitFrame, BeginFrame, LocateViews(0), LocateViews(n)];
    var tail := [BlitToWindow(viewDatas[0].frameBuffer, width, height),
                 EndFrame(inputs.frameState.predictedDisplayTime, XR_ENVIRONMENT_BLEND_MODE_OPAQUE,
                          ToUInt32(layerCount), DrawnViews(state, projectionViews, inputs))];
    assert calls == head + eyesCalls + tail;
    FourPerEye(head, eyesCalls, tail, n);
  }

  /** A frame waited for but not to be rendered is ended with no layers. */
  lemma UnrenderedFrameLayout(state: SessionState, views: seq<ViewConfigurationView>, viewDatas: seq<ViewData>,
                              projectionViews: seq<ProjectionView>, layerCount: nat, inputs: FrameInputs)
    requires DrawRequirements(state, views, viewDatas, projectionViews, inputs)
    requires IsRenderable(state) && UnqualifiedSuccess(inputs.waitResult) && !inputs.frameState.shouldRender
    ensures DrawCalls(state, views, viewDatas, projectionViews, layerCount, inputs) ==
      [WaitFrame, BeginFrame,
       EndFrame(inputs.frameState.predictedDisplayTime, XR_ENVIRONMENT_BLEND_MODE_OPAQUE, 0, [])]
    ensures DrawnViews(state, projectionViews, inputs) == projectionViews
  {
  }
}
