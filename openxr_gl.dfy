/** The OpenXR/OpenGL bridge object of the GLUT cube sample. It keeps the runtime's
    API-layer and extension lists, the view configuration, one view-data entry per eye,
    the projection views and layers it submits, the extensions it asks for and the
    session state. Every call it makes into the runtime or the GL driver is appended to
    the ghost `trace`; every answer the runtime gives is a parameter of the method that
    receives it. */
module OpenXRGL {

  import opened OpenXR
  import opened GlState
  import opened SessionEvents
  import opened FramePipeline
  import opened Bootstrap

  /** What the runtime answers to one two-call enumeration: the count query, then the fill. */
  datatype Enumeration<T> = Enumeration(countResult: XrResult, count: uint32, fillResult: XrResult, filled: seq<T>)
  {
    /** The runtime fills exactly the buffer it was given. */
    predicate Valid() { |filled| == count }
  }

  function ApiLayerQuery(capacity: nat): Call { EnumerateApiLayerProperties(capacity) }
  function ExtensionQuery(capacity: nat): Call { EnumerateInstanceExtensionProperties(capacity) }
  function ViewConfigurationQuery(capacity: nat): Call
  {
    EnumerateViewConfigurationViews(XR_VIEW_CONFIGURATION_TYPE_PRIMARY_STEREO, capacity)
  }

  /** The pose of the reference space: orientation (0, 0, 0, -1) at the origin. */
  const REFERENCE_POSE := Posef(Quaternionf(0.0, 0.0, 0.0, -1.0), Vector3f(0.0, 0.0, 0.0))

  /** The name under which the OpenGL graphics-requirements entry point is looked up. */
  const GL_REQUIREMENTS_PROC := "xrGetOpenGLGraphicsRequirementsKHR"

  /** `checkViewConfiguration` succeeds when both calls pass `check` and there is a view. */
  predicate ViewConfigurationOk(e: Enumeration<ViewConfigurationView>)
  {
    Check(e.countResult) && e.count > 0 && Check(e.fillResult)
  }

  /** What the runtime answers during `init`, stage by stage. */
  datatype InitInputs = InitInputs(
    instanceResult: XrResult, systemResult: XrResult,
    procAddrResult: XrResult, requirementsResult: XrResult, sessionResult: XrResult,
    spaceResult: XrResult, space: Handle,
    viewConfiguration: Enumeration<ViewConfigurationView>,
    swapchains: seq<SwapchainResponse>, frameBuffers: seq<nat>)

  predicate InitInputsWellFormed(inputs: InitInputs)
  {
    inputs.viewConfiguration.Valid() && ResponsesWellFormed(inputs.swapchains) &&
    |inputs.swapchains| >= inputs.viewConfiguration.count && |inputs.frameBuffers| >= inputs.viewConfiguration.count
  }

  /** Whether each runtime stage of `init` succeeds, in stage order. */
  function RuntimeOutcomes(inputs: InitInputs): (oks: seq<bool>)
    ensures |oks| == |RUNTIME_STAGES|
  {
    [Check(inputs.instanceResult), Check(inputs.systemResult),
     Check(inputs.procAddrResult) && Check(inputs.requirementsResult) && Check(inputs.sessionResult),
     Check(inputs.spaceResult)]
  }

  /** Whether each per-eye stage of `init` succeeds, in stage order; laying out the
      projection layer and creating the framebuffers cannot fail. */
  function ViewOutcomes(inputs: InitInputs): (oks: seq<bool>)
    requires InitInputsWellFormed(inputs)
    ensures |oks| == |VIEW_STAGES|
  {
    var n := inputs.viewConfiguration.count;
    [ViewConfigurationOk(inputs.viewConfiguration), FirstFailingEye(inputs.swapchains, n) == n, true, true]
  }

  /** Whether each stage of `init` succeeds, in stage order. */
  function StageOutcomes(inputs: InitInputs): (oks: seq<bool>)
    requires InitInputsWellFormed(inputs)
    ensures |oks| == |BOOT_STAGES|
  {
    RuntimeOutcomes(inputs) + ViewOutcomes(inputs)
  }

  /** The calls `createSession` makes: each runs only when the one before passed `check`. */
  function SessionCalls(procAddrResult: XrResult, requirementsResult: XrResult): (calls: seq<Call>)
    ensures |calls| == if !Check(procAddrResult) then 1 else if !Check(requirementsResult) then 2 else 3
    ensures calls[0] == GetInstanceProcAddr(GL_REQUIREMENTS_PROC)
  {
    [GetInstanceProcAddr(GL_REQUIREMENTS_PROC)] +
    if Check(procAddrResult) then
      [GetOpenGLGraphicsRequirements] + (if Check(requirementsResult) then [Call.CreateSession] else [])
    else []
  }

  /** The calls of each runtime stage of `init`, in stage order, when the extensions
      asked for are `required`. */
  function RuntimeStageCalls(inputs: InitInputs, required: seq<string>): (calls: seq<seq<Call>>)
    ensures |calls| == |RUNTIME_STAGES|
  {
    [[Call.CreateInstance("TestApp", 1, "TestEngine", 1, required)],
     [Call.GetSystem(XR_FORM_FACTOR_HEAD_MOUNTED_DISPLAY)],
     SessionCalls(inputs.procAddrResult, inputs.requirementsResult),
     [Call.CreateReferenceSpace(XR_REFERENCE_SPACE_TYPE_LOCAL, REFERENCE_POSE)]]
  }

  /** The calls of each per-eye stage of `init`, in stage order: the swapchains are made at
      the first view's recommended size, and the composition layer makes no call. */
  function ViewStageCalls(inputs: InitInputs): (calls: seq<seq<Call>>)
    requires InitInputsWellFormed(inputs)
    ensures |calls| == |VIEW_STAGES|
  {
    var e := inputs.viewConfiguration;
    var width := if e.count > 0 then e.filled[0].recommendedImageRectWidth else 0;
    var height := if e.count > 0 then e.filled[0].recommendedImageRectHeight else 0;
    [CountThenFillCalls(ViewConfigurationQuery, e.countResult, e.count),
     SwapchainCalls(inputs.swapchains, width, height, EyesTried(inputs.swapchains, e.count)),
     [],
     seq(e.count, _ => GenFramebuffer)]
  }

  /** The calls of every stage of `init`, in stage order. */
  function StageCalls(inputs: InitInputs, required: seq<string>): (calls: seq<seq<Call>>)
    requires InitInputsWellFormed(inputs)
    ensures |calls| == |BOOT_STAGES|
  {
    RuntimeStageCalls(inputs, required) + ViewStageCalls(inputs)
  }

  /** The calls `init` makes: those of every stage it runs, up to the first that fails. */
  function InitCalls(inputs: InitInputs, required: seq<string>): seq<Call>
    requires InitInputsWellFormed(inputs)
  {
    Flatten(StageCalls(inputs, required)[..StagesRun(StageOutcomes(inputs))])
  }

  /** The eye list after `checkViewConfiguration` and, when it passed, `createSwapChain`. */
  function EyesConfigured(viewDatas: seq<ViewData>, inputs: InitInputs): (eyes: seq<ViewData>)
    requires InitInputsWellFormed(inputs)
    ensures ViewConfigurationOk(inputs.viewConfiguration) ==> |eyes| == inputs.viewConfiguration.count
  {
    var e := inputs.viewConfiguration;
    if ViewConfigurationOk(e) then SwapchainsAfter(Resize(viewDatas, e.count, EMPTY_VIEW_DATA), inputs.swapchains)
    else if Check(e.countResult) && e.count > 0 then Resize(viewDatas, e.count, EMPTY_VIEW_DATA)
    else viewDatas
  }

  /** `init` succeeds exactly when both halves of its chain do, and then the view
      configuration was read. */
  lemma InitOutcome(inputs: InitInputs)
    requires InitInputsWellFormed(inputs)
    ensures (forall k :: 0 <= k < |BOOT_STAGES| ==> StageOutcomes(inputs)[k]) <==>
            FirstFalse(RuntimeOutcomes(inputs)) == |RUNTIME_STAGES| && FirstFalse(ViewOutcomes(inputs)) == |VIEW_STAGES|
    ensures FirstFalse(ViewOutcomes(inputs)) == |VIEW_STAGES| ==> ViewConfigurationOk(inputs.viewConfiguration)
  {
    ChainAppend(RuntimeOutcomes(inputs), ViewOutcomes(inputs));
    ChainOutcome(StageOutcomes(inputs));
    if FirstFalse(ViewOutcomes(inputs)) == |VIEW_STAGES| {
      assert ViewOutcomes(inputs)[0];
    }
  }

  /** The per-eye half of `init`'s chain runs the view enumeration, then, when it passed,
      the swapchains, then, when every eye got one, the composition layer, which makes no
      call, and the framebuffers. */
  lemma ViewStagesRun(inputs: InitInputs)
    requires InitInputsWellFormed(inputs)
    ensures FirstFalse(ViewOutcomes(inputs)) == |VIEW_STAGES| <==> ViewOutcomes(inputs)[0] && ViewOutcomes(inputs)[1]
    ensures VIEW_STAGES[..StagesRun(ViewOutcomes(inputs))] ==
      if !ViewOutcomes(inputs)[0] then VIEW_STAGES[..1]
      else if !ViewOutcomes(inputs)[1] then VIEW_STAGES[..2] else VIEW_STAGES[..2] + VIEW_STAGES[2..]
    ensures Flatten(ViewStageCalls(inputs)[..StagesRun(ViewOutcomes(inputs))]) ==
      if !ViewOutcomes(inputs)[0] then ViewStageCalls(inputs)[0]
      else if !ViewOutcomes(inputs)[1] then ViewStageCalls(inputs)[0] + ViewStageCalls(inputs)[1]
      else (ViewStageCalls(inputs)[0] + ViewStageCalls(inputs)[1]) + ViewStageCalls(inputs)[3]
  {
    var oks, calls := ViewOutcomes(inputs), ViewStageCalls(inputs);
    ChainOfFour(oks[0], oks[1], true, true);
    assert oks == [oks[0], oks[1], true, true];
    FlattenFour(calls);
    assert calls[2] == [];
    assert calls[0] + calls[1] + calls[2] == calls[0] + calls[1];
  }

  /** `init`'s calls are those of the runtime stages it runs, then, once all four
      succeeded, those of the per-eye stages it runs. */
  lemma InitCallsSplit(inputs: InitInputs, required: seq<string>)
    requires InitInputsWellFormed(inputs)
    ensures InitCalls(inputs, required) ==
      Flatten(RuntimeStageCalls(inputs, required)[..StagesRun(RuntimeOutcomes(inputs))]) +
      if FirstFalse(RuntimeOutcomes(inputs)) < |RUNTIME_STAGES| then []
      else Flatten(ViewStageCalls(inputs)[..StagesRun(ViewOutcomes(inputs))])
  {
    var runtime, perEye := RuntimeOutcomes(inputs), ViewOutcomes(inputs);
    var runtimeCalls, viewCalls := RuntimeStageCalls(inputs, required), ViewStageCalls(inputs);
    ChainAppend(runtime, perEye);
    if FirstFalse(runtime) < |RUNTIME_STAGES| {
      assert StageCalls(inputs, required)[..StagesRun(runtime)] == runtimeCalls[..StagesRun(runtime)];
    } else {
      assert runtimeCalls[..StagesRun(runtime)] == runtimeCalls;
      assert StageCalls(inputs, required)[..StagesRun(StageOutcomes(inputs))]
          == runtimeCalls + viewCalls[..StagesRun(perEye)];
      FlattenAppend(runtimeCalls, viewCalls[..StagesRun(perEye)]);
    }
  }

  /** `init`'s stages run are the runtime stages it runs, then, once all four succeeded,
      the per-eye stages it runs. */
  lemma StagesRunSplit(inputs: InitInputs)
    requires InitInputsWellFormed(inputs)
    ensures BOOT_STAGES[..StagesRun(StageOutcomes(inputs))] ==
      RUNTIME_STAGES[..StagesRun(RuntimeOutcomes(inputs))] +
      if FirstFalse(RuntimeOutcomes(inputs)) < |RUNTIME_STAGES| then []
      else VIEW_STAGES[..StagesRun(ViewOutcomes(inputs))]
  {
    var runtime, perEye := RuntimeOutcomes(inputs), ViewOutcomes(inputs);
    ChainAppend(runtime, perEye);
    if FirstFalse(runtime) == |RUNTIME_STAGES| {
      assert RUNTIME_STAGES[..StagesRun(runtime)] == RUNTIME_STAGES;
    }
  }

  /** When all four runtime stages succeed, they call, in order: the instance, the system,
      the requirements look-up and the session, and the reference space. */
  lemma RuntimeCallsOnSuccess(inputs: InitInputs, required: seq<string>)
    requires FirstFalse(RuntimeOutcomes(inputs)) == |RUNTIME_STAGES|
    ensures Flatten(RuntimeStageCalls(inputs, required)[..StagesRun(RuntimeOutcomes(inputs))]) ==
      [Call.CreateInstance("TestApp", 1, "TestEngine", 1, required),
       Call.GetSystem(XR_FORM_FACTOR_HEAD_MOUNTED_DISPLAY),
       GetInstanceProcAddr(GL_REQUIREMENTS_PROC), GetOpenGLGraphicsRequirements, Call.CreateSession,
       Call.CreateReferenceSpace(XR_REFERENCE_SPACE_TYPE_LOCAL, REFERENCE_POSE)]
  {
    var runtime := RuntimeStageCalls(inputs, required);
    assert StagesRun(RuntimeOutcomes(inputs)) == 4 && runtime[..4] == runtime;
    assert RuntimeOutcomes(inputs)[2];
    assert runtime[2] == [GetInstanceProcAddr(GL_REQUIREMENTS_PROC), GetOpenGLGraphicsRequirements, Call.CreateSession];
    FlattenFour(runtime);
  }

  /** When every per-eye stage succeeds, they call, in order: the two-call view
      enumeration, each eye's swapchain calls at the first view's recommended size, and one
      framebuffer per eye. */
  lemma ViewCallsOnSuccess(inputs: InitInputs)
    requires InitInputsWellFormed(inputs)
    requires FirstFalse(ViewOutcomes(inputs)) == |VIEW_STAGES|
    ensures inputs.viewConfiguration.count > 0
    ensures Flatten(ViewStageCalls(inputs)[..StagesRun(ViewOutcomes(inputs))]) ==
      [ViewConfigurationQuery(0), ViewConfigurationQuery(inputs.viewConfiguration.count)] +
      (SwapchainCalls(inputs.swapchains, inputs.viewConfiguration.filled[0].recommendedImageRectWidth,
                      inputs.viewConfiguration.filled[0].recommendedImageRectHeight, inputs.viewConfiguration.count) +
       seq(inputs.viewConfiguration.count, _ => GenFramebuffer))
  {
    var n := inputs.viewConfiguration.count;
    var perEye := ViewStageCalls(inputs);
    ViewStagesRun(inputs);
    assert ViewOutcomes(inputs)[0];
    assert perEye[0] == [ViewConfigurationQuery(0), ViewConfigurationQuery(n)];
    AppendTwice(perEye[0], perEye[1], perEye[3]);
  }

  /** A successful `init` makes, in order: the instance, the system, the requirements
      look-up and the session, the reference space, the two-call view enumeration, one
      swapchain and image enumeration per eye, and one framebuffer per eye. */
  lemma InitCallsOnSuccess(inputs: InitInputs, required: seq<string>)
    requires InitInputsWellFormed(inputs)
    requires forall k :: 0 <= k < |BOOT_STAGES| ==> StageOutcomes(inputs)[k]
    ensures inputs.viewConfiguration.count > 0
    ensures InitCalls(inputs, required) ==
      [Call.CreateInstance("TestApp", 1, "TestEngine", 1, required),
       Call.GetSystem(XR_FORM_FACTOR_HEAD_MOUNTED_DISPLAY),
       GetInstanceProcAddr(GL_REQUIREMENTS_PROC), GetOpenGLGraphicsRequirements, Call.CreateSession,
       Call.CreateReferenceSpace(XR_REFERENCE_SPACE_TYPE_LOCAL, REFERENCE_POSE),
       ViewConfigurationQuery(0), ViewConfigurationQuery(inputs.viewConfiguration.count)] +
      SwapchainCalls(inputs.swapchains, inputs.viewConfiguration.filled[0].recommendedImageRectWidth,
                     inputs.viewConfiguration.filled[0].recommendedImageRectHeight, inputs.viewConfiguration.count) +
      seq(inputs.viewConfiguration.count, _ => GenFramebuffer)
  {
    InitOutcome(inputs);
    InitCallsSplit(inputs, required);
    RuntimeCallsOnSuccess(inputs, required);
    ViewCallsOnSuccess(inputs);
    var runtime := Flatten(RuntimeStageCalls(inputs, required)[..StagesRun(RuntimeOutcomes(inputs))]);
    var queries := [ViewConfigurationQuery(0), ViewConfigurationQuery(inputs.viewConfiguration.count)];
    var rest := SwapchainCalls(inputs.swapchains, inputs.viewConfiguration.filled[0].recommendedImageRectWidth,
                               inputs.viewConfiguration.filled[0].recommendedImageRectHeight, inputs.viewConfiguration.count);
    var frameBuffers := seq(inputs.viewConfiguration.count, _ => GenFramebuffer);
    assert runtime + (queries + (rest + frameBuffers)) == (runtime + queries) + rest + frameBuffers;
  }

  /** When the instance cannot be created, `init` makes no other call. */
  lemma InitCallsOnInstanceFailure(inputs: InitInputs, required: seq<string>)
    requires InitInputsWellFormed(inputs) && !Check(inputs.instanceResult)
    ensures InitCalls(inputs, required) == [Call.CreateInstance("TestApp", 1, "TestEngine", 1, required)]
  {
    var calls := StageCalls(inputs, required);
    FirstFalseAt(StageOutcomes(inputs), 0);
    assert calls[..1][..0] == [];
    FlattenStep(calls, 0);
  }

  /** Whether the runtime listed an extension of this name. */
  predicate Supports(extensions: seq<ExtensionProperties>, name: string)
  {
    exists i :: 0 <= i < |extensions| && extensions[i].extensionName == name
  }

  lemma FirstFalseAt(oks: seq<bool>, k: nat)
    requires k <= |oks| && (forall j :: 0 <= j < k ==> oks[j]) && (k < |oks| ==> !oks[k])
    ensures FirstFalse(oks) == k
  {
  }

  class XrGl {
    var state: SessionState
    var supportedApiLayers: seq<ApiLayerProperties>
    var supportedExtensions: seq<ExtensionProperties>
    var views: seq<ViewConfigurationView>
    var viewDatas: seq<ViewData>
    var projectionLayerViews: seq<ProjectionView>
    var layersPointers: seq<ProjectionLayer>
    var requiredExtensions: seq<string>
    var space: Handle
    /** Every call made into the runtime or the GL driver, oldest first. */
    ghost var trace: seq<Call>
    /** The `init` stages run so far, oldest first. */
    ghost var stagesRun: seq<Stage>

    /** The object starts idle and enumerates the API layers, then the extensions. */
    constructor (apiLayers: Enumeration<ApiLayerProperties>, extensions: Enumeration<ExtensionProperties>)
      requires apiLayers.Valid() && extensions.Valid()
      ensures state == XR_SESSION_STATE_IDLE && space == 0
      ensures supportedApiLayers ==
        CountThenFill([], apiLayers.countResult, apiLayers.count, apiLayers.fillResult, apiLayers.filled, EMPTY_API_LAYER)
      ensures supportedExtensions ==
        CountThenFill([], extensions.countResult, extensions.count, extensions.fillResult, extensions.filled, EMPTY_EXTENSION)
      ensures views == [] && viewDatas == [] && projectionLayerViews == [] && layersPointers == []
      ensures requiredExtensions == [] && stagesRun == []
      ensures trace == CountThenFillCalls(ApiLayerQuery, apiLayers.countResult, apiLayers.count) +
                       CountThenFillCalls(ExtensionQuery, extensions.countResult, extensions.count)
    {
      state := XR_SESSION_STATE_IDLE;
      supportedApiLayers, supportedExtensions := [], [];
      views, viewDatas, projectionLayerViews, layersPointers := [], [], [], [];
      requiredExtensions := [];
      space := 0;
      trace, stagesRun := [], [];
      new;
      EnumerateRuntime(apiLayers, extensions);
    }

    /** The constructor's two enumerations on a fresh object: API layers, then extensions. */
    method EnumerateRuntime(apiLayers: Enumeration<ApiLayerProperties>, extensions: Enumeration<ExtensionProperties>)
      requires apiLayers.Valid() && extensions.Valid()
      requires supportedApiLayers == [] && supportedExtensions == [] && trace == []
      modifies this`supportedApiLayers, this`supportedExtensions, this`trace
      ensures supportedApiLayers ==
        CountThenFill([], apiLayers.countResult, apiLayers.count, apiLayers.fillResult, apiLayers.filled, EMPTY_API_LAYER)
      ensures supportedExtensions ==
        CountThenFill([], extensions.countResult, extensions.count, extensions.fillResult, extensions.filled, EMPTY_EXTENSION)
      ensures trace == CountThenFillCalls(ApiLayerQuery, apiLayers.countResult, apiLayers.count) +
                       CountThenFillCalls(ExtensionQuery, extensions.countResult, extensions.count)
    {
      EnumerateApiLayers(apiLayers);
      assert trace == CountThenFillCalls(ApiLayerQuery, apiLayers.countResult, apiLayers.count);
      EnumerateExtensions(extensions);
    }

    /** `enumerateApiLayers`: the two-call enumeration into the API-layer list. */
    method EnumerateApiLayers(e: Enumeration<ApiLayerProperties>)
      requires e.Valid()
      modifies this`supportedApiLayers, this`trace
      ensures supportedApiLayers ==
        CountThenFill(old(supportedApiLayers), e.countResult, e.count, e.fillResult, e.filled, EMPTY_API_LAYER)
      ensures trace == old(trace) + CountThenFillCalls(ApiLayerQuery, e.countResult, e.count)
    {
      var num: nat := 0;
      trace := trace + [ApiLayerQuery(num)];
      if Succeeded(e.countResult) {
        num := e.count;
      }
      if Check(e.countResult) && num > 0 {
        supportedApiLayers := Resize(supportedApiLayers, num, EMPTY_API_LAYER);
        trace := trace + [ApiLayerQuery(num)];
        if Succeeded(e.fillResult) {
          supportedApiLayers := e.filled;
        }
      }
    }

    /** `enumerateExtensions`: the two-call enumeration into the extension list. */
    method EnumerateExtensions(e: Enumeration<ExtensionProperties>)
      requires e.Valid()
      modifies this`supportedExtensions, this`trace
      ensures supportedExtensions ==
        CountThenFill(old(supportedExtensions), e.countResult, e.count, e.fillResult, e.filled, EMPTY_EXTENSION)
      ensures trace == old(trace) + CountThenFillCalls(ExtensionQuery, e.countResult, e.count)
    {
      var num: nat := 0;
      trace := trace + [ExtensionQuery(num)];
      if Succeeded(e.countResult) {
        num := e.count;
      }
      if Check(e.countResult) && num > 0 {
        supportedExtensions := Resize(supportedExtensions, num, EMPTY_EXTENSION);
        trace := trace + [ExtensionQuery(num)];
        if Succeeded(e.fillResult) {
          supportedExtensions := e.filled;
        }
      }
    }

    /** `useExtension`: ask for the extension when the runtime supports it. There is no
        de-duplication, so asking twice appends twice. */
    method UseExtension(name: string) returns (found: bool)
      modifies this`requiredExtensions
      ensures found <==> Supports(supportedExtensions, name)
      ensures requiredExtensions == if found then old(requiredExtensions) + [name] else old(requiredExtensions)
    {
      var i := 0;
      while i < |supportedExtensions|
        invariant 0 <= i <= |supportedExtensions|
        invariant forall j :: 0 <= j < i ==> supportedExtensions[j].extensionName != name
        invariant requiredExtensions == old(requiredExtensions)
      {
        if supportedExtensions[i].extensionName == name {
          requiredExtensions := requiredExtensions + [name];
          assert 0 <= i < |supportedExtensions| && supportedExtensions[i].extensionName == name;
          return true;
        }
        i := i + 1;
      }
      return false;
    }

    /** `beginSession`: begin the session with the stereo view configuration. */
    method BeginSession(result: XrResult) returns (ok: bool)
      modifies this`trace
      ensures ok == Check(result)
      ensures trace == old(trace) + [Call.BeginSession(XR_VIEW_CONFIGURATION_TYPE_PRIMARY_STEREO)]
    {
      trace := trace + [Call.BeginSession(XR_VIEW_CONFIGURATION_TYPE_PRIMARY_STEREO)];
      ok := Check(result);
    }

    /** `endSession`. */
    method EndSession(result: XrResult) returns (ok: bool)
      modifies this`trace
      ensures ok == Check(result)
      ensures trace == old(trace) + [Call.EndSession]
    {
      trace := trace + [Call.EndSession];
      ok := Check(result);
    }

    /** `processEvent`: drain the event queue, following every session-state change and
        answering READY and STOPPING. */
    method ProcessEvent(polls: seq<Poll>)
      requires EndsUnavailable(polls)
      modifies this`state, this`trace
      ensures state == DrainState(old(state), Delivered(polls))
      ensures trace == old(trace) + DrainCalls(Delivered(polls))
    {
      ghost var events := Delivered(polls);
      ghost var last := FirstUnavailable(polls);
      var i := 0;
      while true
        invariant 0 <= i <= last
        invariant state == DrainState(old(state), events[..i])
        invariant trace == old(trace) + Handled(events[..i])
        decreases last - i
      {
        var poll := polls[i];
        trace := trace + [PollEvent];
        if poll.result == XR_EVENT_UNAVAILABLE {
          assert events[..i] == events;
          AppendTwice(old(trace), Handled(events), [PollEvent]);
          break;
        }
        DrainStep(old(state), events, i);
        HandleEvent(poll);
        AppendTwice(old(trace), Handled(events[..i]), [PollEvent]);
        AppendTwice(old(trace), Handled(events[..i]) + [PollEvent], Reaction(events[i]));
        i := i + 1;
      }
    }

    /** One delivered event: a session-state change is remembered, and READY is answered
        with xrBeginSession, STOPPING with xrEndSession. */
    method HandleEvent(poll: Poll)
      modifies this`state, this`trace
      ensures state == NextState(old(state), BufferAfter(poll))
      ensures trace == old(trace) + Reaction(BufferAfter(poll))
    {
      var event := BufferAfter(poll);
      if event.structureType == XR_TYPE_EVENT_DATA_SESSION_STATE_CHANGED {
        state := event.state;
        if state == XR_SESSION_STATE_READY {
          var _ := BeginSession(poll.reactionResult);
        } else if state == XR_SESSION_STATE_STOPPING {
          var _ := EndSession(poll.reactionResult);
        }
      }
    }

    /** `draw`: run one frame if the session state allows it. The draw callback is the
        `RenderEye` call of each eye. */
    method Draw(inputs: FrameInputs)
      requires DrawRequirements(state, views, viewDatas, projectionLayerViews, inputs)
      modifies this`projectionLayerViews, this`trace
      ensures projectionLayerViews == DrawnViews(state, old(projectionLayerViews), inputs)
      ensures trace == old(trace) + DrawCalls(state, views, viewDatas, old(projectionLayerViews), |layersPointers|, inputs)
    {
      if IsRenderable(state) {
        trace := trace + [WaitFrame];
        if UnqualifiedSuccess(inputs.waitResult) {
          trace := trace + [BeginFrame];
          ghost var afterBegin := trace;
          assert afterBegin == old(trace) + [WaitFrame, BeginFrame];
          if inputs.frameState.shouldRender {
            RenderFrame(inputs);
          }
          var layerCount: uint32 := 0;
          var submitted: seq<ProjectionView> := [];
          if inputs.frameState.shouldRender {
            layerCount := ToUInt32(|layersPointers|);
            submitted := projectionLayerViews;
          }
          trace := trace + [EndFrame(inputs.frameState.predictedDisplayTime, XR_ENVIRONMENT_BLEND_MODE_OPAQUE,
                                     layerCount, submitted)];
          ghost var middle := if inputs.frameState.shouldRender then RenderCalls(views, viewDatas, inputs) else [];
          ghost var end := EndFrameCall(state, old(projectionLayerViews), |layersPointers|, inputs);
          assert trace == afterBegin + middle + [end];
          AppendTwice(old(trace), [WaitFrame, BeginFrame], middle);
          AppendTwice(old(trace), [WaitFrame, BeginFrame] + middle, [end]);
        }
      }
    }

    /** The rendering branch of `draw`: locate the views, then for every located eye copy
        its pose and field of view into its projection view and acquire, wait for, draw
        into and release its swapchain image; finally copy eye 0 to the window. */
    method RenderFrame(inputs: FrameInputs)
      requires |views| > 0 && |viewDatas| > 0 && WellFormed(inputs)
      requires LocateCapacity(inputs) <= |projectionLayerViews|
      requires IndicesInRange(viewDatas, inputs.imageIndices, LocateCapacity(inputs))
      modifies this`projectionLayerViews, this`trace
      ensures projectionLayerViews == PoseUpdated(old(projectionLayerViews), EyeViews(inputs))
      ensures trace == old(trace) + RenderCalls(views, viewDatas, inputs)
    {
      var width, height := views[0].maxImageRectWidth, views[0].maxImageRectHeight;
      var count: nat := 0;
      trace := trace + [LocateViews(count)];
      if Succeeded(inputs.locateCountResult) {
        count := inputs.locateCount;
      }
      var eyes := seq(count, _ => DEFAULT_VIEW);
      trace := trace + [LocateViews(count)];
      if Succeeded(inputs.locateFillResult) {
        eyes := inputs.located;
      }
      assert eyes == EyeViews(inputs) && count == LocateCapacity(inputs) == |eyes|;
      ghost var located := [LocateViews(0), LocateViews(count)];
      AppendTwice(old(trace), [LocateViews(0)], [LocateViews(count)]);
      assert [LocateViews(0)] + [LocateViews(count)] == located;
      RenderEyes(eyes, inputs.imageIndices, width, height);
      ghost var rendered := EyesCalls(viewDatas, inputs.imageIndices, width, height, eyes, |eyes|);
      ghost var blit := BlitToWindow(viewDatas[0].frameBuffer, width, height);
      trace := trace + [blit];
      AppendTwice(old(trace), located, rendered);
      AppendTwice(old(trace), located + rendered, [blit]);
      assert RenderCalls(views, viewDatas, inputs) == located + rendered + [blit];
    }

    /** The per-eye loop of `draw`, over the located views. */
    method RenderEyes(eyes: seq<View>, indices: seq<nat>, width: nat, height: nat)
      requires |eyes| <= |projectionLayerViews| && IndicesInRange(viewDatas, indices, |eyes|)
      modifies this`projectionLayerViews, this`trace
      ensures projectionLayerViews == PoseUpdated(old(projectionLayerViews), eyes)
      ensures trace == old(trace) + EyesCalls(viewDatas, indices, width, height, eyes, |eyes|)
    {
      var i := 0;
      while i < |eyes|
        invariant 0 <= i <= |eyes|
        invariant projectionLayerViews == PoseUpdated(old(projectionLayerViews), eyes[..i])
        invariant trace == old(trace) + EyesCalls(viewDatas, indices, width, height, eyes, i)
      {
        PoseUpdatedStep(old(projectionLayerViews), eyes, i);
        AppendTwice(old(trace), EyesCalls(viewDatas, indices, width, height, eyes, i),
                    EyeCalls(viewDatas[i], indices[i], width, height, eyes[i]));
        RenderEyeView(i, eyes[i], indices[i], width, height);
        i := i + 1;
      }
      assert eyes[..i] == eyes;
    }

    /** One eye of the rendering loop: take over its located pose and field of view, then
        acquire its next image, wait for it, draw into it and release it. */
    method RenderEyeView(i: nat, eye: View, index: nat, width: nat, height: nat)
      requires i < |projectionLayerViews| && i < |viewDatas| && index < |viewDatas[i].swapchainImages|
      modifies this`projectionLayerViews, this`trace
      ensures projectionLayerViews ==
        old(projectionLayerViews)[i := old(projectionLayerViews)[i].(fov := eye.fov, pose := eye.pose)]
      ensures trace == old(trace) + EyeCalls(viewDatas[i], index, width, height, eye)
    {
      projectionLayerViews := projectionLayerViews[i := projectionLayerViews[i].(fov := eye.fov, pose := eye.pose)];
      var vd := viewDatas[i];
      trace := trace + [AcquireSwapchainImage(vd.swapchain)];
      trace := trace + [WaitSwapchainImage(vd.swapchain, XR_INFINITE_DURATION)];
      trace := trace + [RenderEye(vd.frameBuffer, vd.swapchainImages[index].image, width, height, eye.fov, eye.pose)];
      trace := trace + [ReleaseSwapchainImage(vd.swapchain)];
    }

    /** `createInstance`: the application and engine names and versions, and the
        extensions asked for so far. */
    method CreateInstance(result: XrResult) returns (ok: bool)
      modifies this`trace
      ensures ok == Check(result)
      ensures trace == old(trace) + [Call.CreateInstance("TestApp", 1, "TestEngine", 1, requiredExtensions)]
    {
      trace := trace + [Call.CreateInstance("TestApp", 1, "TestEngine", 1, requiredExtensions)];
      ok := Check(result);
    }

    /** `getSystem`: a head-mounted display. */
    method GetSystem(result: XrResult) returns (ok: bool)
      modifies this`trace
      ensures ok == Check(result)
      ensures trace == old(trace) + [Call.GetSystem(XR_FORM_FACTOR_HEAD_MOUNTED_DISPLAY)]
    {
      trace := trace + [Call.GetSystem(XR_FORM_FACTOR_HEAD_MOUNTED_DISPLAY)];
      ok := Check(result);
    }

    /** `createSession`: look up the OpenGL requirements entry point, call it, then create
        the session; each step runs only when the one before passed `check`. */
    method CreateSession(procAddrResult: XrResult, requirementsResult: XrResult, sessionResult: XrResult)
      returns (ok: bool)
      modifies this`trace
      ensures ok == (Check(procAddrResult) && Check(requirementsResult) && Check(sessionResult))
      ensures trace == old(trace) + SessionCalls(procAddrResult, requirementsResult)
    {
      trace := trace + [GetInstanceProcAddr(GL_REQUIREMENTS_PROC)];
      ok := false;
      if Check(procAddrResult) {
        trace := trace + [GetOpenGLGraphicsRequirements];
        if Check(requirementsResult) {
          trace := trace + [Call.CreateSession];
          ok := Check(sessionResult);
        }
      }
    }

    /** `createReferenceSpace`: a local space at the reference pose. */
    method CreateReferenceSpace(result: XrResult, handle: Handle) returns (ok: bool)
      modifies this`space, this`trace
      ensures ok == Check(result)
      ensures space == if Succeeded(result) then handle else old(space)
      ensures trace == old(trace) + [Call.CreateReferenceSpace(XR_REFERENCE_SPACE_TYPE_LOCAL, REFERENCE_POSE)]
    {
      trace := trace + [Call.CreateReferenceSpace(XR_REFERENCE_SPACE_TYPE_LOCAL, REFERENCE_POSE)];
      if Succeeded(result) {
        space := handle;
      }
      ok := Check(result);
    }

    /** `checkViewConfiguration`: the two-call enumeration of the stereo views, with one
        view-data entry per view. */
    method CheckViewConfiguration(e: Enumeration<ViewConfigurationView>) returns (ok: bool)
      requires e.Valid()
      modifies this`views, this`viewDatas, this`trace
      ensures ok == ViewConfigurationOk(e)
      ensures views == CountThenFill(old(views), e.countResult, e.count, e.fillResult, e.filled, EMPTY_VIEW_CONFIGURATION_VIEW)
      ensures viewDatas == if Check(e.countResult) && e.count > 0 then Resize(old(viewDatas), e.count, EMPTY_VIEW_DATA)
                           else old(viewDatas)
      ensures Check(e.countResult) && e.count > 0 ==> |views| == |viewDatas| == e.count
      ensures trace == old(trace) + CountThenFillCalls(ViewConfigurationQuery, e.countResult, e.count)
    {
      var num: nat := 0;
      trace := trace + [ViewConfigurationQuery(num)];
      if Succeeded(e.countResult) {
        num := e.count;
      }
      if Check(e.countResult) && num > 0 {
        views := Resize(views, num, EMPTY_VIEW_CONFIGURATION_VIEW);
        viewDatas := Resize(viewDatas, num, EMPTY_VIEW_DATA);
        trace := trace + [ViewConfigurationQuery(num)];
        if Succeeded(e.fillResult) {
          views := e.filled;
        }
        return Check(e.fillResult);
      }
      return false;
    }

    /** `createSwapChain`: one swapchain per eye at view 0's recommended size, stopping at
        the first eye that fails. */
    method CreateSwapChain(rs: seq<SwapchainResponse>) returns (ok: bool)
      requires |views| > 0 && |viewDatas| <= |rs| && ResponsesWellFormed(rs)
      modifies this`viewDatas, this`trace
      ensures ok == (FirstFailingEye(rs, |old(viewDatas)|) == |old(viewDatas)|)
      ensures viewDatas == SwapchainsAfter(old(viewDatas), rs)
      ensures trace == old(trace) + SwapchainCalls(rs, views[0].recommendedImageRectWidth,
                                                   views[0].recommendedImageRectHeight, EyesTried(rs, |old(viewDatas)|))
    {
      var width, height := views[0].recommendedImageRectWidth, views[0].recommendedImageRectHeight;
      ghost var n := |viewDatas|;
      ok := true;
      // i counts the eyes tried so far, the failing one included
      var i := 0;
      while i < |viewDatas|
        invariant 0 <= i <= n && |viewDatas| == n
        invariant FirstFailingEye(rs, i) == i
        invariant viewDatas == TurnsTaken(old(viewDatas), rs, i)
        invariant trace == old(trace) + SwapchainCalls(rs, width, height, i)
      {
        TurnsTakenStep(old(viewDatas), rs, i);
        AppendTwice(old(trace), SwapchainCalls(rs, width, height, i), EyeSwapchainCalls(rs[i], width, height));
        var vd;
        vd, ok := CreateEyeSwapchain(viewDatas[i], rs[i], width, height);
        viewDatas := viewDatas[i := vd];
        i := i + 1;
        if !ok {
          FirstFailingEyeStays(rs, i, n);
          break;
        }
      }
      assert EyesTried(rs, n) == i;
    }

    /** One eye's turn in `createSwapChain`: create its swapchain, then enumerate its images
        into its image list; `ok` says whether the loop goes on. */
    method CreateEyeSwapchain(vd: ViewData, r: SwapchainResponse, width: uint32, height: uint32)
      returns (after: ViewData, ok: bool)
      requires |r.images| == r.count
      modifies this`trace
      ensures after == ApplyEye(vd, r) && ok == EyeOk(r)
      ensures trace == old(trace) + EyeSwapchainCalls(r, width, height)
    {
      after := vd;
      ok := true;
      trace := trace + [CreateSwapchain(width, height, 1)];
      if Succeeded(r.createResult) {
        after := after.(swapchain := r.handle);
      }
      if Check(r.createResult) {
        var num: nat := 0;
        trace := trace + [EnumerateSwapchainImages(after.swapchain, num)];
        if Succeeded(r.countResult) {
          num := r.count;
        }
        if Check(r.countResult) && num > 0 {
          after := after.(swapchainImages := Resize(after.swapchainImages, num, EMPTY_SWAPCHAIN_IMAGE));
          trace := trace + [EnumerateSwapchainImages(after.swapchain, num)];
          if Succeeded(r.fillResult) {
            after := after.(swapchainImages := r.images);
          }
          if !Check(r.fillResult) {
            ok := false;
          }
        } else {
          ok := false;
        }
      } else {
        ok := false;
      }
    }

    /** `prepareCompositionLayer`: one projection view per eye and one projection layer
        over all of them. */
    method PrepareCompositionLayer() returns (ok: bool)
      requires |viewDatas| > 0 ==> |views| > 0
      modifies this`projectionLayerViews, this`layersPointers
      ensures ok
      ensures |viewDatas| > 0 ==>
                projectionLayerViews == PreparedViewsAsWritten(old(projectionLayerViews), viewDatas,
                                                               views[0].recommendedImageRectWidth,
                                                               views[0].recommendedImageRectHeight)
      ensures |viewDatas| == 0 ==> projectionLayerViews == []
      ensures layersPointers == old(layersPointers) + [CompositionLayer(space, projectionLayerViews)]
    {
      var n := |viewDatas|;
      var base := Resize(projectionLayerViews, n, EMPTY_PROJECTION_VIEW);
      projectionLayerViews := base;
      var i := 0;
      while i < n
        invariant 0 <= i <= n && |projectionLayerViews| == n && layersPointers == old(layersPointers)
        invariant forall j :: 0 <= j < i ==>
          projectionLayerViews[j] == ProjectionViewSkeletonAsWritten(base[j], viewDatas[j].swapchain,
                                                                     views[0].recommendedImageRectWidth,
                                                                     views[0].recommendedImageRectHeight)
        invariant forall j :: i <= j < n ==> projectionLayerViews[j] == base[j]
      {
        projectionLayerViews := projectionLayerViews[i :=
          ProjectionViewSkeletonAsWritten(projectionLayerViews[i], viewDatas[i].swapchain,
                                          views[0].recommendedImageRectWidth, views[0].recommendedImageRectHeight)];
        i := i + 1;
      }
      if n > 0 {
        ghost var prepared := PreparedViewsAsWritten(old(projectionLayerViews), viewDatas,
                                                     views[0].recommendedImageRectWidth,
                                                     views[0].recommendedImageRectHeight);
        assert forall j :: 0 <= j < n ==> projectionLayerViews[j] == prepared[j];
        assert projectionLayerViews == prepared;
      }
      layersPointers := layersPointers + [CompositionLayer(space, projectionLayerViews)];
      ok := true;
    }

    /** `createFrameBubber`: one new framebuffer name per eye. */
    method CreateFrameBuffer(names: seq<nat>) returns (ok: bool)
      requires |names| >= |viewDatas|
      modifies this`viewDatas, this`trace
      ensures ok
      ensures viewDatas == FrameBuffersAfter(old(viewDatas), names)
      ensures trace == old(trace) + seq(|viewDatas|, _ => GenFramebuffer)
    {
      var i := 0;
      while i < |viewDatas|
        invariant 0 <= i <= |viewDatas| && |viewDatas| == |old(viewDatas)|
        invariant forall j :: 0 <= j < |viewDatas| ==>
          viewDatas[j] == if j < i then old(viewDatas)[j].(frameBuffer := names[j]) else old(viewDatas)[j]
        invariant trace == old(trace) + seq(i, _ => GenFramebuffer)
      {
        trace := trace + [GenFramebuffer];
        viewDatas := viewDatas[i := viewDatas[i].(frameBuffer := names[i])];
        i := i + 1;
      }
      ok := true;
    }

    /** `release`: delete every eye's framebuffer, then destroy the instance. */
    method Release()
      modifies this`trace
      ensures trace == old(trace) + ReleaseCalls(viewDatas)
    {
      var eyes := viewDatas;
      var i := 0;
      while i < |eyes|
        invariant 0 <= i <= |eyes|
        invariant trace == old(trace) + seq(i, j requires 0 <= j < i => DeleteFramebuffer(eyes[j].frameBuffer))
      {
        trace := trace + [DeleteFramebuffer(eyes[i].frameBuffer)];
        i := i + 1;
      }
      trace := trace + [DestroyInstance];
    }

    /** `init`: ask for the OpenGL extension, then run the stages in order, each only if
        every stage before it succeeded. */
    method Init(inputs: InitInputs) returns (ok: bool)
      requires InitInputsWellFormed(inputs)
      modifies this`requiredExtensions, this`space, this`views, this`viewDatas, this`projectionLayerViews,
               this`layersPointers, this`trace, this`stagesRun
      ensures ok <==> forall k :: 0 <= k < |BOOT_STAGES| ==> StageOutcomes(inputs)[k]
      ensures stagesRun == old(stagesRun) + BOOT_STAGES[..StagesRun(StageOutcomes(inputs))]
      ensures requiredExtensions ==
        if Supports(supportedExtensions, XR_KHR_OPENGL_ENABLE_EXTENSION_NAME)
        then old(requiredExtensions) + [XR_KHR_OPENGL_ENABLE_EXTENSION_NAME] else old(requiredExtensions)
      ensures trace == old(trace) + InitCalls(inputs, requiredExtensions)
      ensures space == if FirstFalse(RuntimeOutcomes(inputs)) >= 3 && Succeeded(inputs.spaceResult)
                       then inputs.space else old(space)
      ensures views == if FirstFalse(RuntimeOutcomes(inputs)) < |RUNTIME_STAGES| then old(views)
                       else CountThenFill(old(views), inputs.viewConfiguration.countResult, inputs.viewConfiguration.count,
                                          inputs.viewConfiguration.fillResult, inputs.viewConfiguration.filled,
                                          EMPTY_VIEW_CONFIGURATION_VIEW)
      ensures ok ==> ViewConfigurationOk(inputs.viewConfiguration)
      ensures viewDatas == if FirstFalse(RuntimeOutcomes(inputs)) < |RUNTIME_STAGES| then old(viewDatas)
                           else if ok then FrameBuffersAfter(EyesConfigured(old(viewDatas), inputs), inputs.frameBuffers)
                           else EyesConfigured(old(viewDatas), inputs)
      ensures ok ==> |views| == |viewDatas| == |projectionLayerViews| == inputs.viewConfiguration.count > 0
      ensures ok ==> EyesReady(viewDatas, inputs.swapchains, inputs.frameBuffers)
      ensures ok ==> projectionLayerViews == PreparedViewsAsWritten(old(projectionLayerViews), viewDatas,
                                                                    views[0].recommendedImageRectWidth,
                                                                    views[0].recommendedImageRectHeight)
      ensures ok ==> layersPointers == old(layersPointers) + [CompositionLayer(space, projectionLayerViews)]
      ensures !ok ==> projectionLayerViews == old(projectionLayerViews) && layersPointers == old(layersPointers)
    {
      var _ := UseExtension(XR_KHR_OPENGL_ENABLE_EXTENSION_NAME);
      ok := RunStages(inputs);
      assert ok <==> forall k :: 0 <= k < |BOOT_STAGES| ==> StageOutcomes(inputs)[k] by {
        InitOutcome(inputs);
      }
      assert stagesRun == old(stagesRun) + BOOT_STAGES[..StagesRun(StageOutcomes(inputs))] by {
        StagesRunSplit(inputs);
      }
      assert trace == old(trace) + InitCalls(inputs, requiredExtensions) by {
        InitCallsSplit(inputs, requiredExtensions);
      }
    }

    /** `init`'s chain of stages, after the extension has been asked for. */
    method RunStages(inputs: InitInputs) returns (ok: bool)
      requires InitInputsWellFormed(inputs)
      modifies this`space, this`views, this`viewDatas, this`projectionLayerViews, this`layersPointers,
               this`trace, this`stagesRun
      ensures ok <==> FirstFalse(RuntimeOutcomes(inputs)) == |RUNTIME_STAGES| && FirstFalse(ViewOutcomes(inputs)) == |VIEW_STAGES|
      ensures stagesRun == old(stagesRun) + (RUNTIME_STAGES[..StagesRun(RuntimeOutcomes(inputs))] +
        if FirstFalse(RuntimeOutcomes(inputs)) < |RUNTIME_STAGES| then [] else VIEW_STAGES[..StagesRun(ViewOutcomes(inputs))])
      ensures trace == old(trace) + (Flatten(RuntimeStageCalls(inputs, requiredExtensions)[..StagesRun(RuntimeOutcomes(inputs))]) +
        if FirstFalse(RuntimeOutcomes(inputs)) < |RUNTIME_STAGES| then []
        else Flatten(ViewStageCalls(inputs)[..StagesRun(ViewOutcomes(inputs))]))
      ensures space == if FirstFalse(RuntimeOutcomes(inputs)) >= 3 && Succeeded(inputs.spaceResult)
                       then inputs.space else old(space)
      ensures FirstFalse(RuntimeOutcomes(inputs)) < |RUNTIME_STAGES| ==>
        views == old(views) && viewDatas == old(viewDatas) &&
        projectionLayerViews == old(projectionLayerViews) && layersPointers == old(layersPointers)
      ensures FirstFalse(RuntimeOutcomes(inputs)) == |RUNTIME_STAGES| ==>
        views == CountThenFill(old(views), inputs.viewConfiguration.countResult, inputs.viewConfiguration.count,
                               inputs.viewConfiguration.fillResult, inputs.viewConfiguration.filled,
                               EMPTY_VIEW_CONFIGURATION_VIEW)
      ensures ok ==> ViewConfigurationOk(inputs.viewConfiguration)
      ensures FirstFalse(RuntimeOutcomes(inputs)) == |RUNTIME_STAGES| ==>
        viewDatas == if ok then FrameBuffersAfter(EyesConfigured(old(viewDatas), inputs), inputs.frameBuffers)
                     else EyesConfigured(old(viewDatas), inputs)
      ensures ok ==> |views| == |viewDatas| == |projectionLayerViews| == inputs.viewConfiguration.count > 0
      ensures ok ==> EyesReady(viewDatas, inputs.swapchains, inputs.frameBuffers)
      ensures ok ==> projectionLayerViews == PreparedViewsAsWritten(old(projectionLayerViews), viewDatas,
                                                                    views[0].recommendedImageRectWidth,
                                                                    views[0].recommendedImageRectHeight)
      ensures ok ==> layersPointers == old(layersPointers) + [CompositionLayer(space, projectionLayerViews)]
      ensures !ok ==> projectionLayerViews == old(projectionLayerViews) && layersPointers == old(layersPointers)
    {
      ok := StartRuntime(inputs);
      if !ok {
        return;
      }
      ok := BuildViews(inputs);
      assert stagesRun == old(stagesRun) + (RUNTIME_STAGES[..|RUNTIME_STAGES|] + VIEW_STAGES[..StagesRun(ViewOutcomes(inputs))]) by {
        AppendTwice(old(stagesRun), RUNTIME_STAGES[..|RUNTIME_STAGES|], VIEW_STAGES[..StagesRun(ViewOutcomes(inputs))]);
      }
      assert trace == old(trace) + (Flatten(RuntimeStageCalls(inputs, requiredExtensions)[..|RUNTIME_STAGES|]) +
                                    Flatten(ViewStageCalls(inputs)[..StagesRun(ViewOutcomes(inputs))])) by {
        AppendTwice(old(trace), Flatten(RuntimeStageCalls(inputs, requiredExtensions)[..|RUNTIME_STAGES|]),
                    Flatten(ViewStageCalls(inputs)[..StagesRun(ViewOutcomes(inputs))]));
      }
    }

    /** The first half of `init`'s chain: instance, system, session, reference space. */
    method StartRuntime(inputs: InitInputs) returns (ok: bool)
      modifies this`space, this`trace, this`stagesRun
      ensures ok <==> FirstFalse(RuntimeOutcomes(inputs)) == |RUNTIME_STAGES|
      ensures stagesRun == old(stagesRun) + RUNTIME_STAGES[..StagesRun(RuntimeOutcomes(inputs))]
      ensures trace == old(trace) + Flatten(RuntimeStageCalls(inputs, requiredExtensions)[..StagesRun(RuntimeOutcomes(inputs))])
      ensures space == if FirstFalse(RuntimeOutcomes(inputs)) >= 3 && Succeeded(inputs.spaceResult)
                       then inputs.space else old(space)
    {
      ghost var oks := RuntimeOutcomes(inputs);
      ghost var calls := RuntimeStageCalls(inputs, requiredExtensions);
      FlattenFour(calls);
      stagesRun := stagesRun + [InstanceStage];
      ok := CreateInstance(inputs.instanceResult);
      if !ok {
        FirstFalseAt(oks, 0);
        return;
      }
      stagesRun := stagesRun + [SystemStage];
      ok := GetSystem(inputs.systemResult);
      if !ok {
        FirstFalseAt(oks, 1);
        return;
      }
      stagesRun := stagesRun + [SessionStage];
      ok := CreateSession(inputs.procAddrResult, inputs.requirementsResult, inputs.sessionResult);
      if !ok {
        FirstFalseAt(oks, 2);
        return;
      }
      stagesRun := stagesRun + [ReferenceSpaceStage];
      ok := CreateReferenceSpace(inputs.spaceResult, inputs.space);
      FirstFalseAt(oks, if ok then 4 else 3);
    }

    /** The second half of `init`'s chain: view configuration, swapchains, composition
        layer, framebuffers. */
    method BuildViews(inputs: InitInputs) returns (ok: bool)
      requires InitInputsWellFormed(inputs)
      modifies this`views, this`viewDatas, this`projectionLayerViews, this`layersPointers, this`trace, this`stagesRun
      ensures ok <==> FirstFalse(ViewOutcomes(inputs)) == |VIEW_STAGES|
      ensures stagesRun == old(stagesRun) + VIEW_STAGES[..StagesRun(ViewOutcomes(inputs))]
      ensures trace == old(trace) + Flatten(ViewStageCalls(inputs)[..StagesRun(ViewOutcomes(inputs))])
      ensures views == CountThenFill(old(views), inputs.viewConfiguration.countResult, inputs.viewConfiguration.count,
                                     inputs.viewConfiguration.fillResult, inputs.viewConfiguration.filled,
                                     EMPTY_VIEW_CONFIGURATION_VIEW)
      ensures ok ==> ViewConfigurationOk(inputs.viewConfiguration)
      ensures viewDatas == if ok then FrameBuffersAfter(EyesConfigured(old(viewDatas), inputs), inputs.frameBuffers)
                           else EyesConfigured(old(viewDatas), inputs)
      ensures ok ==> |views| == |viewDatas| == |projectionLayerViews| == inputs.viewConfiguration.count > 0
      ensures ok ==> EyesReady(viewDatas, inputs.swapchains, inputs.frameBuffers)
      ensures ok ==> projectionLayerViews == PreparedViewsAsWritten(old(projectionLayerViews), viewDatas,
                                                                    views[0].recommendedImageRectWidth,
                                                                    views[0].recommendedImageRectHeight)
      ensures ok ==> layersPointers == old(layersPointers) + [CompositionLayer(space, projectionLayerViews)]
      ensures !ok ==> projectionLayerViews == old(projectionLayerViews) && layersPointers == old(layersPointers)
    {
      ghost var calls := ViewStageCalls(inputs);
      ViewStagesRun(inputs);
      ok := ConfigureEyes(inputs);
      if !ok {
        return;
      }
      FrameBuffersReady(viewDatas, inputs.swapchains, inputs.frameBuffers);
      PrepareTargets(inputs.frameBuffers);
      AppendTwice(old(stagesRun), VIEW_STAGES[..2], VIEW_STAGES[2..]);
      AppendTwice(old(trace), calls[0] + calls[1], calls[3]);
    }

    /** `checkViewConfiguration` and then, if it passed, `createSwapChain`. */
    method ConfigureEyes(inputs: InitInputs) returns (ok: bool)
      requires InitInputsWellFormed(inputs)
      modifies this`views, this`viewDatas, this`trace, this`stagesRun
      ensures ok == (ViewConfigurationOk(inputs.viewConfiguration) &&
                     FirstFailingEye(inputs.swapchains, inputs.viewConfiguration.count) == inputs.viewConfiguration.count)
      ensures stagesRun == old(stagesRun) +
        if ViewConfigurationOk(inputs.viewConfiguration) then VIEW_STAGES[..2] else VIEW_STAGES[..1]
      ensures trace == old(trace) +
        if ViewConfigurationOk(inputs.viewConfiguration) then ViewStageCalls(inputs)[0] + ViewStageCalls(inputs)[1]
        else ViewStageCalls(inputs)[0]
      ensures views == CountThenFill(old(views), inputs.viewConfiguration.countResult, inputs.viewConfiguration.count,
                                     inputs.viewConfiguration.fillResult, inputs.viewConfiguration.filled,
                                     EMPTY_VIEW_CONFIGURATION_VIEW)
      ensures viewDatas == EyesConfigured(old(viewDatas), inputs)
      ensures ok ==> |views| == |viewDatas| == inputs.viewConfiguration.count
      ensures ok ==> SwapchainsInstalled(viewDatas, inputs.swapchains)
    {
      ViewStagePrefixes();
      stagesRun := stagesRun + [ViewConfigurationStage];
      var configured := CheckViewConfiguration(inputs.viewConfiguration);
      if !configured {
        return false;
      }
      ok := InstallSwapchains(inputs.swapchains);
      AppendTwice(old(trace), ViewStageCalls(inputs)[0], ViewStageCalls(inputs)[1]);
      AppendTwice(old(stagesRun), [ViewConfigurationStage], [SwapchainStage]);
    }

    /** The swapchain stage of `init`, once the view configuration is known. */
    method InstallSwapchains(rs: seq<SwapchainResponse>) returns (ok: bool)
      requires |views| > 0 && |viewDatas| <= |rs| && ResponsesWellFormed(rs)
      modifies this`viewDatas, this`trace, this`stagesRun
      ensures ok == (FirstFailingEye(rs, |old(viewDatas)|) == |old(viewDatas)|)
      ensures stagesRun == old(stagesRun) + [SwapchainStage]
      ensures viewDatas == SwapchainsAfter(old(viewDatas), rs)
      ensures trace == old(trace) + SwapchainCalls(rs, views[0].recommendedImageRectWidth,
                                                   views[0].recommendedImageRectHeight, EyesTried(rs, |old(viewDatas)|))
      ensures ok ==> SwapchainsInstalled(viewDatas, rs)
    {
      stagesRun := stagesRun + [SwapchainStage];
      ghost var configured := viewDatas;
      ok := CreateSwapChain(rs);
      if ok {
        SwapchainsOk(configured, rs);
      }
    }

    /** `prepareCompositionLayer` and then `createFrameBubber`, neither of which can fail. */
    method PrepareTargets(names: seq<nat>)
      requires |names| >= |viewDatas| && (|viewDatas| > 0 ==> |views| > 0)
      modifies this`viewDatas, this`projectionLayerViews, this`layersPointers, this`trace, this`stagesRun
      ensures stagesRun == old(stagesRun) + VIEW_STAGES[2..]
      ensures viewDatas == FrameBuffersAfter(old(viewDatas), names)
      ensures trace == old(trace) + seq(|viewDatas|, _ => GenFramebuffer)
      ensures |viewDatas| > 0 ==>
                projectionLayerViews == PreparedViewsAsWritten(old(projectionLayerViews), viewDatas,
                                                               views[0].recommendedImageRectWidth,
                                                               views[0].recommendedImageRectHeight)
      ensures |viewDatas| == 0 ==> projectionLayerViews == []
      ensures layersPointers == old(layersPointers) + [CompositionLayer(space, projectionLayerViews)]
    {
      ViewStagePrefixes();
      stagesRun := stagesRun + [CompositionLayerStage];
      var _ := PrepareCompositionLayer();
      ghost var eyes := viewDatas;
      stagesRun := stagesRun + [FrameBufferStage];
      var _ := CreateFrameBuffer(names);
      AppendTwice(old(stagesRun), [CompositionLayerStage], [FrameBufferStage]);
      if |viewDatas| > 0 {
        PreparedViewsIgnoreFrameBuffers(old(projectionLayerViews), eyes, names,
                                        views[0].recommendedImageRectWidth, views[0].recommendedImageRectHeight);
      }
    }
  }

  /** Once some eye among the first m fails, looking at more eyes finds the same one. */
  lemma {:induction false} FirstFailingEyeStays(rs: seq<SwapchainResponse>, m: nat, n: nat)
    requires m <= n <= |rs| && FirstFailingEye(rs, m) < m
    ensures FirstFailingEye(rs, n) == FirstFailingEye(rs, m)
    decreases n - m
  {
    if m < n {
      FirstFailingEyeStays(rs, m, n - 1);
    }
  }
}
