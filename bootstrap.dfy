/** The bridge's start-up: the chain of stages `init` runs, each of which may fail, and
    the per-eye work of three of them (swapchains, the projection layer, framebuffers),
    stated as functions of what the runtime answers. The bridge's methods are proved to
    do what these functions say. */
module Bootstrap {

  import opened OpenXR
  import opened GlState

  // ----- the stage chain ---------------------------------------------------------

  /** The stages of `init`, after the OpenGL extension has been requested. */
  datatype Stage =
    | InstanceStage | SystemStage | SessionStage | ReferenceSpaceStage
    | ViewConfigurationStage | SwapchainStage | CompositionLayerStage | FrameBufferStage

  /** The stages that connect to the runtime, then the stages that build the per-eye targets. */
  const RUNTIME_STAGES: seq<Stage> := [InstanceStage, SystemStage, SessionStage, ReferenceSpaceStage]
  const VIEW_STAGES: seq<Stage> := [ViewConfigurationStage, SwapchainStage, CompositionLayerStage, FrameBufferStage]
  const BOOT_STAGES: seq<Stage> := RUNTIME_STAGES + VIEW_STAGES

  /** The prefixes of the per-eye stages that `init` can run. */
  lemma ViewStagePrefixes()
    ensures VIEW_STAGES[..1] == [ViewConfigurationStage]
    ensures VIEW_STAGES[..2] == [ViewConfigurationStage] + [SwapchainStage]
    ensures VIEW_STAGES[2..] == [CompositionLayerStage] + [FrameBufferStage]
    ensures VIEW_STAGES[..2] + VIEW_STAGES[2..] == VIEW_STAGES
  {
  }

  /** The position of the first stage that fails, or the number of stages when none does. */
  function FirstFalse(oks: seq<bool>): (k: nat)
    ensures k <= |oks|
    ensures forall j :: 0 <= j < k ==> oks[j]
    ensures k < |oks| ==> !oks[k]
    decreases |oks|
  {
    if oks == [] || !oks[0] then 0 else 1 + FirstFalse(oks[1..])
  }

  /** How many stages a short-circuiting chain runs: up to and including the first failure. */
  function StagesRun(oks: seq<bool>): nat
  {
    if FirstFalse(oks) < |oks| then FirstFalse(oks) + 1 else |oks|
  }

  /** The chain succeeds exactly when every stage does; every stage it runs except the
      last succeeded, and when it stops early the last one it ran failed. */
  lemma ChainOutcome(oks: seq<bool>)
    ensures FirstFalse(oks) == |oks| <==> forall i :: 0 <= i < |oks| ==> oks[i]
    ensures StagesRun(oks) <= |oks|
    ensures forall i :: 0 <= i < StagesRun(oks) - 1 ==> oks[i]
    ensures StagesRun(oks) < |oks| ==> !oks[StagesRun(oks) - 1]
    ensures StagesRun(oks) == |oks| <==> forall i :: 0 <= i < |oks| - 1 ==> oks[i]
  {
    if FirstFalse(oks) < |oks| {
      assert !oks[FirstFalse(oks)];
    }
  }

  /** A chain of four stages stops at its first failure. */
  lemma ChainOfFour(a: bool, b: bool, c: bool, d: bool)
    ensures FirstFalse([a, b, c, d]) == if !a then 0 else if !b then 1 else if !c then 2 else if !d then 3 else 4
  {
    assert [d][1..] == [];
    assert FirstFalse([d]) == if d then 1 else 0;
    assert [c, d][1..] == [d];
    assert FirstFalse([c, d]) == if c then 1 + FirstFalse([d]) else 0;
    assert [b, c, d][1..] == [c, d];
    assert FirstFalse([b, c, d]) == if b then 1 + FirstFalse([c, d]) else 0;
    assert [a, b, c, d][1..] == [b, c, d];
  }

  /** Running one chain after another short-circuits like running their concatenation:
      the second chain is reached only when the first one succeeds completely. */
  lemma {:induction false} ChainAppend(a: seq<bool>, b: seq<bool>)
    ensures FirstFalse(a + b) == if FirstFalse(a) < |a| then FirstFalse(a) else |a| + FirstFalse(b)
    ensures StagesRun(a + b) == if FirstFalse(a) < |a| then StagesRun(a) else |a| + StagesRun(b)
    decreases |a|
  {
    if a == [] {
      assert a + b == b;
    } else if a[0] {
      assert (a + b)[1..] == a[1..] + b;
      ChainAppend(a[1..], b);
    }
  }

  // ----- swapchains: one per eye, stopping at the first eye that fails -------------

  /** What the runtime answers for one eye: xrCreateSwapchain, then the two-call
      xrEnumerateSwapchainImages. */
  datatype SwapchainResponse = SwapchainResponse(
    createResult: XrResult, handle: Handle,
    countResult: XrResult, count: uint32, fillResult: XrResult, images: seq<SwapchainImage>)

  predicate ResponsesWellFormed(rs: seq<SwapchainResponse>)
  {
    forall i :: 0 <= i < |rs| ==> |rs[i].images| == rs[i].count
  }

  /** An eye succeeds when its swapchain is created and it has a non-empty image list. */
  predicate EyeOk(r: SwapchainResponse)
  {
    Check(r.createResult) && Check(r.countResult) && r.count > 0 && Check(r.fillResult)
  }

  /** One eye's view data after its turn in the loop. */
  function ApplyEye(vd: ViewData, r: SwapchainResponse): (after: ViewData)
    requires |r.images| == r.count
    ensures EyeOk(r) ==> after.swapchain == r.handle && after.swapchainImages == r.images
    ensures !Succeeded(r.createResult) ==> after == vd
    ensures after.frameBuffer == vd.frameBuffer
  {
    var created := if Succeeded(r.createResult) then vd.(swapchain := r.handle) else vd;
    if Check(r.createResult) then
      created.(swapchainImages :=
        CountThenFill(vd.swapchainImages, r.countResult, r.count, r.fillResult, r.images, EMPTY_SWAPCHAIN_IMAGE))
    else created
  }

  /** The calls one eye makes: the create, then, if it succeeded, the image enumeration. */
  function EyeSwapchainCalls(r: SwapchainResponse, width: uint32, height: uint32): seq<Call>
  {
    [CreateSwapchain(width, height, 1)] +
    if Check(r.createResult) then
      [EnumerateSwapchainImages(r.handle, 0)] +
      if Check(r.countResult) && r.count > 0 then [EnumerateSwapchainImages(r.handle, r.count)] else []
    else []
  }

  /** The first eye among the first n that fails, or n when none does. */
  function FirstFailingEye(rs: seq<SwapchainResponse>, n: nat): (k: nat)
    requires n <= |rs|
    ensures k <= n
    ensures forall i :: 0 <= i < k ==> EyeOk(rs[i])
    ensures k < n ==> !EyeOk(rs[k])
    decreases n
  {
    if n == 0 then 0
    else
      var k := FirstFailingEye(rs, n - 1);
      if k < n - 1 then k else if EyeOk(rs[n - 1]) then n else n - 1
  }

  /** The eyes the loop reaches: up to and including the first that fails. */
  function EyesTried(rs: seq<SwapchainResponse>, n: nat): (k: nat)
    requires n <= |rs|
    ensures k <= n
  {
    if FirstFailingEye(rs, n) < n then FirstFailingEye(rs, n) + 1 else n
  }

  /** The view data once the first k eyes have had their turn. */
  function TurnsTaken(viewDatas: seq<ViewData>, rs: seq<SwapchainResponse>, k: nat): (after: seq<ViewData>)
    requires k <= |viewDatas| <= |rs| && ResponsesWellFormed(rs)
    ensures |after| == |viewDatas|
    ensures forall i :: k <= i < |after| ==> after[i] == viewDatas[i]
    ensures forall i :: 0 <= i < |after| ==> after[i].frameBuffer == viewDatas[i].frameBuffer
  {
    seq(|viewDatas|, i requires 0 <= i < |viewDatas| => if i < k then ApplyEye(viewDatas[i], rs[i]) else viewDatas[i])
  }

  /** One more turn changes exactly the next eye's entry. */
  lemma TurnsTakenStep(viewDatas: seq<ViewData>, rs: seq<SwapchainResponse>, k: nat)
    requires k < |viewDatas| <= |rs| && ResponsesWellFormed(rs)
    ensures TurnsTaken(viewDatas, rs, k)[k := ApplyEye(viewDatas[k], rs[k])] == TurnsTaken(viewDatas, rs, k + 1)
  {
  }

  /** Every eye's view data after the loop: the eyes it reached have had their turn, the
      ones after the failing eye are untouched. */
  function SwapchainsAfter(viewDatas: seq<ViewData>, rs: seq<SwapchainResponse>): (after: seq<ViewData>)
    requires |viewDatas| <= |rs| && ResponsesWellFormed(rs)
    ensures |after| == |viewDatas|
    ensures forall i :: EyesTried(rs, |viewDatas|) <= i < |after| ==> after[i] == viewDatas[i]
    ensures forall i :: 0 <= i < |after| ==> after[i].frameBuffer == viewDatas[i].frameBuffer
  {
    TurnsTaken(viewDatas, rs, EyesTried(rs, |viewDatas|))
  }

  /** Eye i holds the i-th created swapchain and that swapchain's non-empty image list. */
  predicate SwapchainsInstalled(viewDatas: seq<ViewData>, rs: seq<SwapchainResponse>)
  {
    |viewDatas| <= |rs| &&
    forall i :: 0 <= i < |viewDatas| ==>
      viewDatas[i].swapchain == rs[i].handle && viewDatas[i].swapchainImages == rs[i].images &&
      |viewDatas[i].swapchainImages| > 0
  }

  /** When no eye fails, every eye has its new swapchain and its non-empty image list. */
  lemma SwapchainsOk(viewDatas: seq<ViewData>, rs: seq<SwapchainResponse>)
    requires |viewDatas| <= |rs| && ResponsesWellFormed(rs)
    requires FirstFailingEye(rs, |viewDatas|) == |viewDatas|
    ensures SwapchainsInstalled(SwapchainsAfter(viewDatas, rs), rs)
  {
    var after := SwapchainsAfter(viewDatas, rs);
    forall i | 0 <= i < |viewDatas|
      ensures after[i].swapchain == rs[i].handle && after[i].swapchainImages == rs[i].images
      ensures |after[i].swapchainImages| > 0
    {
      assert EyeOk(rs[i]);
      assert after[i] == TurnsTaken(viewDatas, rs, |viewDatas|)[i] == ApplyEye(viewDatas[i], rs[i]);
    }
  }

  /** The calls of the first k eyes, in eye order. */
  function SwapchainCalls(rs: seq<SwapchainResponse>, width: uint32, height: uint32, k: nat): seq<Call>
    requires k <= |rs|
    decreases k
  {
    if k == 0 then [] else SwapchainCalls(rs, width, height, k - 1) + EyeSwapchainCalls(rs[k - 1], width, height)
  }

  predicate IsCreateSwapchain(c: Call) { c.CreateSwapchain? }

  /** Each eye reached creates exactly one swapchain, and every swapchain is created with
      the same size and a single sample. */
  lemma {:induction false} SwapchainCallSizes(rs: seq<SwapchainResponse>, width: uint32, height: uint32, k: nat)
    requires k <= |rs|
    ensures Count(SwapchainCalls(rs, width, height, k), IsCreateSwapchain) == k
    ensures forall c :: c in SwapchainCalls(rs, width, height, k) && c.CreateSwapchain? ==>
      c == CreateSwapchain(width, height, 1)
    decreases k
  {
    if k > 0 {
      var before := SwapchainCalls(rs, width, height, k - 1);
      var r := rs[k - 1];
      var eye := EyeSwapchainCalls(r, width, height);
      var rest := if Check(r.createResult) then
        [EnumerateSwapchainImages(r.handle, 0)] +
        (if Check(r.countResult) && r.count > 0 then [EnumerateSwapchainImages(r.handle, r.count)] else [])
      else [];
      SwapchainCallSizes(rs, width, height, k - 1);
      assert eye == [CreateSwapchain(width, height, 1)] + rest;
      assert forall i :: 0 <= i < |rest| ==> rest[i].EnumerateSwapchainImages?;
      CountNone(rest, IsCreateSwapchain);
      CountAppend([CreateSwapchain(width, height, 1)], rest, IsCreateSwapchain);
      CountAppend(before, eye, IsCreateSwapchain);
    }
  }

  // ----- the projection layer -----------------------------------------------------

  /** One projection view as `prepareCompositionLayer` sets it up: eye i's swapchain, the
      recommended size of view 0 (cast to signed 32 bits), array index 0, and the
      structure type of a projection view. Pose, field of view and offset are kept. */
  function ProjectionViewSkeleton(pv: ProjectionView, swapchain: Handle, width: uint32, height: uint32): (r: ProjectionView)
    ensures r.structureType == XR_TYPE_COMPOSITION_LAYER_PROJECTION_VIEW
    ensures r.subImage.swapchain == swapchain && r.subImage.imageArrayIndex == 0
    ensures r.subImage.imageRect.extent == Extent2Di(ToInt32(width), ToInt32(height))
    ensures r.subImage.imageRect.offset == pv.subImage.imageRect.offset
    ensures r.pose == pv.pose && r.fov == pv.fov
  {
    var rect := pv.subImage.imageRect.(extent := Extent2Di(ToInt32(width), ToInt32(height)));
    pv.(structureType := XR_TYPE_COMPOSITION_LAYER_PROJECTION_VIEW,
        subImage := pv.subImage.(imageArrayIndex := 0, swapchain := swapchain, imageRect := rect))
  }

  /** The same set-up as the bridge writes it, which stores the structure type of the
      projection layer in each projection view; everything else is as in the corrected
      set-up. */
  function ProjectionViewSkeletonAsWritten(pv: ProjectionView, swapchain: Handle, width: uint32, height: uint32)
    : (r: ProjectionView)
    ensures r.structureType == XR_TYPE_COMPOSITION_LAYER_PROJECTION
    ensures r.subImage.swapchain == swapchain && r.subImage.imageArrayIndex == 0
    ensures r.subImage.imageRect.extent == Extent2Di(ToInt32(width), ToInt32(height))
    ensures r.subImage.imageRect.offset == pv.subImage.imageRect.offset
    ensures r.pose == pv.pose && r.fov == pv.fov
  {
    var rect := pv.subImage.imageRect.(extent := Extent2Di(ToInt32(width), ToInt32(height)));
    pv.(structureType := XR_TYPE_COMPOSITION_LAYER_PROJECTION,
        subImage := pv.subImage.(imageArrayIndex := 0, swapchain := swapchain, imageRect := rect))
  }

  /** As written, every projection view carries a structure type that is not
      XR_TYPE_COMPOSITION_LAYER_PROJECTION_VIEW; it differs from the corrected set-up in
      that field alone. */
  lemma ProjectionViewTypeMismatch(pv: ProjectionView, swapchain: Handle, width: uint32, height: uint32)
    ensures ProjectionViewSkeletonAsWritten(pv, swapchain, width, height).structureType
      != XR_TYPE_COMPOSITION_LAYER_PROJECTION_VIEW
    ensures ProjectionViewSkeletonAsWritten(pv, swapchain, width, height) ==
      ProjectionViewSkeleton(pv, swapchain, width, height).(structureType := XR_TYPE_COMPOSITION_LAYER_PROJECTION)
  {
  }

  /** The projection views after `prepareCompositionLayer` with the corrected structure
      type: one per eye, entry i set up for eye i's swapchain. */
  function PreparedViews(projectionViews: seq<ProjectionView>, viewDatas: seq<ViewData>,
                         width: uint32, height: uint32): (r: seq<ProjectionView>)
    ensures |r| == |viewDatas|
    ensures forall i :: 0 <= i < |r| ==>
      r[i].structureType == XR_TYPE_COMPOSITION_LAYER_PROJECTION_VIEW &&
      r[i].subImage.swapchain == viewDatas[i].swapchain && r[i].subImage.imageArrayIndex == 0 &&
      r[i].subImage.imageRect.extent == Extent2Di(ToInt32(width), ToInt32(height))
    ensures forall i :: 0 <= i < |r| && i < |projectionViews| ==>
      r[i].pose == projectionViews[i].pose && r[i].fov == projectionViews[i].fov
  {
    var base := Resize(projectionViews, |viewDatas|, EMPTY_PROJECTION_VIEW);
    seq(|viewDatas|, i requires 0 <= i < |viewDatas| =>
      ProjectionViewSkeleton(base[i], viewDatas[i].swapchain, width, height))
  }

  /** The projection views after `prepareCompositionLayer` as the bridge builds them: one
      per eye, entry i set up for eye i's swapchain, with the projection layer's type. */
  function PreparedViewsAsWritten(projectionViews: seq<ProjectionView>, viewDatas: seq<ViewData>,
                                  width: uint32, height: uint32): (r: seq<ProjectionView>)
    ensures |r| == |viewDatas|
    ensures forall i :: 0 <= i < |r| ==>
      r[i].structureType == XR_TYPE_COMPOSITION_LAYER_PROJECTION &&
      r[i].subImage.swapchain == viewDatas[i].swapchain && r[i].subImage.imageArrayIndex == 0 &&
      r[i].subImage.imageRect.extent == Extent2Di(ToInt32(width), ToInt32(height))
    ensures forall i :: 0 <= i < |r| && i < |projectionViews| ==>
      r[i].pose == projectionViews[i].pose && r[i].fov == projectionViews[i].fov
  {
    var base := Resize(projectionViews, |viewDatas|, EMPTY_PROJECTION_VIEW);
    seq(|viewDatas|, i requires 0 <= i < |viewDatas| =>
      ProjectionViewSkeletonAsWritten(base[i], viewDatas[i].swapchain, width, height))
  }

  /** The bridge's projection views differ from the corrected ones only in their type. */
  lemma PreparedViewsTypeMismatch(projectionViews: seq<ProjectionView>, viewDatas: seq<ViewData>,
                                  width: uint32, height: uint32)
    ensures |PreparedViewsAsWritten(projectionViews, viewDatas, width, height)| == |viewDatas|
    ensures forall i :: 0 <= i < |viewDatas| ==>
      PreparedViewsAsWritten(projectionViews, viewDatas, width, height)[i] ==
      PreparedViews(projectionViews, viewDatas, width, height)[i].(structureType := XR_TYPE_COMPOSITION_LAYER_PROJECTION)
  {
    forall i | 0 <= i < |viewDatas|
      ensures PreparedViewsAsWritten(projectionViews, viewDatas, width, height)[i] ==
              PreparedViews(projectionViews, viewDatas, width, height)[i].(structureType := XR_TYPE_COMPOSITION_LAYER_PROJECTION)
    {
      var base := Resize(projectionViews, |viewDatas|, EMPTY_PROJECTION_VIEW);
      ProjectionViewTypeMismatch(base[i], viewDatas[i].swapchain, width, height);
    }
  }

  /** The projection layer `prepareCompositionLayer` appends: it covers every projection
      view (the count cast to 32 bits), in the reference space, with no flags. */
  function CompositionLayer(space: Handle, projectionViews: seq<ProjectionView>): (layer: ProjectionLayer)
    ensures layer.structureType == XR_TYPE_COMPOSITION_LAYER_PROJECTION
    ensures layer.space == space && layer.layerFlags == 0
    ensures |projectionViews| < UINT32_LIMIT ==> layer.viewCount == |projectionViews|
  {
    ProjectionLayer(XR_TYPE_COMPOSITION_LAYER_PROJECTION, 0, space, ToUInt32(|projectionViews|))
  }

  // ----- framebuffers and release ----------------------------------------------------

  /** Every eye's view data after `createFrameBubber`: eye i holds the i-th new name. */
  function FrameBuffersAfter(viewDatas: seq<ViewData>, names: seq<nat>): (after: seq<ViewData>)
    requires |names| >= |viewDatas|
    ensures |after| == |viewDatas|
    ensures forall i :: 0 <= i < |after| ==>
      after[i].frameBuffer == names[i] && after[i].swapchain == viewDatas[i].swapchain &&
      after[i].swapchainImages == viewDatas[i].swapchainImages
  {
    seq(|viewDatas|, i requires 0 <= i < |viewDatas| => viewDatas[i].(frameBuffer := names[i]))
  }

  /** Every eye is ready to render: its swapchain and images are installed and it holds
      the i-th framebuffer name. */
  predicate EyesReady(viewDatas: seq<ViewData>, rs: seq<SwapchainResponse>, names: seq<nat>)
  {
    SwapchainsInstalled(viewDatas, rs) && |viewDatas| <= |names| &&
    forall i :: 0 <= i < |viewDatas| ==> viewDatas[i].frameBuffer == names[i]
  }

  /** Handing out framebuffer names keeps the installed swapchains. */
  lemma FrameBuffersReady(viewDatas: seq<ViewData>, rs: seq<SwapchainResponse>, names: seq<nat>)
    requires SwapchainsInstalled(viewDatas, rs) && |names| >= |viewDatas|
    ensures EyesReady(FrameBuffersAfter(viewDatas, names), rs, names)
  {
  }

  /** The projection views depend only on the eyes' swapchains, so handing out framebuffer
      names afterwards leaves them describing the same eyes. */
  lemma PreparedViewsIgnoreFrameBuffers(projectionViews: seq<ProjectionView>, viewDatas: seq<ViewData>,
                                        names: seq<nat>, width: uint32, height: uint32)
    requires |names| >= |viewDatas|
    ensures PreparedViewsAsWritten(projectionViews, FrameBuffersAfter(viewDatas, names), width, height)
         == PreparedViewsAsWritten(projectionViews, viewDatas, width, height)
  {
    var a := PreparedViewsAsWritten(projectionViews, FrameBuffersAfter(viewDatas, names), width, height);
    var b := PreparedViewsAsWritten(projectionViews, viewDatas, width, height);
    assert |a| == |b|;
    forall i | 0 <= i < |a| ensures a[i] == b[i] {
      assert FrameBuffersAfter(viewDatas, names)[i].swapchain == viewDatas[i].swapchain;
    }
  }

  /** The calls of `release`: every eye's framebuffer is deleted, in order, then the
      instance is destroyed. */
  function ReleaseCalls(viewDatas: seq<ViewData>): (calls: seq<Call>)
    ensures |calls| == |viewDatas| + 1 && calls[|viewDatas|] == DestroyInstance
    ensures forall i :: 0 <= i < |viewDatas| ==> calls[i] == DeleteFramebuffer(viewDatas[i].frameBuffer)
  {
    seq(|viewDatas|, i requires 0 <= i < |viewDatas| => DeleteFramebuffer(viewDatas[i].frameBuffer)) + [DestroyInstance]
  }

  /** Teardown after `init` stopped at the swapchain stage: the view data were freshly
      resized by the view-configuration stage and no framebuffer was generated, so every
      name `release` deletes is 0, which the GL driver ignores; it then destroys the
      instance. Nothing created for the eyes is released by name. */
  lemma ReleaseAfterSwapchainFailure(n: nat, rs: seq<SwapchainResponse>)
    requires n <= |rs| && ResponsesWellFormed(rs)
    ensures var calls := ReleaseCalls(SwapchainsAfter(Resize([], n, EMPTY_VIEW_DATA), rs));
      |calls| == n + 1 && calls[n] == DestroyInstance &&
      forall i :: 0 <= i < n ==> calls[i] == DeleteFramebuffer(0)
  {
    var initial := Resize([], n, EMPTY_VIEW_DATA);
    var after := SwapchainsAfter(initial, rs);
    forall i | 0 <= i < n ensures after[i].frameBuffer == 0 {
      assert initial[i] == EMPTY_VIEW_DATA;
    }
  }
}
