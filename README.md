# OpenXR/OpenGL bridge of the OpenXR samples, in Dafny

This project models `COpenXRGL`, the object the GLUT cube sample uses to drive an
OpenXR runtime from an OpenGL application. It also models the pure helpers of the
`basic_info` diagnostic tool.

The bridge is a class, `OpenXRGL.XrGl`, with the fields the C++ object updates in place:

- the session state;
- the supported API layers and extensions;
- the view configuration and one view-data entry per eye (swapchain, framebuffer, images);
- the projection views, the layer list, the required extensions and the reference space.

Every call the bridge makes into the runtime or the GL driver is appended to a ghost
call trace (`GlState.Call`). Every answer the runtime gives is a parameter of the method
that receives it:

- result codes and counts;
- filled buffers and handles;
- polled events;
- the frame state of `xrWaitFrame`;
- the image index of each acquire.

The draw callback is the `RenderEye` event of each eye. It carries the eye's field of view
and pose, from which the matrices are built.

The specification side lives in modules of functions and lemmas:

- `Bootstrap`: the `init` chain, the per-eye swapchain loop, the composition layer,
  framebuffers and teardown.
- `SessionEvents`: the `processEvent` drain. It follows the session lifecycle of chapter 9
  of the OpenXR 1.0 specification.
- `FramePipeline`: one `draw`. It follows the frame loop of chapter 10 of the OpenXR 1.0
  specification.
- `BasicInfo`, with `Decimal` beneath it: the success test, the version and enumeration
  names, and the record lines of the diagnostic tool. Each line format is proved lossless
  by a reader that recovers the numbers.

Each method of the class is proved to change its fields and extend the trace exactly as
these functions say. In particular `init` extends the trace by `InitCalls`: the calls of every
stage it runs, up to and including the first stage that fails.

Where the code departs from the session lifecycle and frame loop of the OpenXR 1.0 specification, the model follows the code:

- READY begins the session with no guard against beginning twice: `SessionEvents.HandledCounts` proves that the begins equal the READY events.
- The image wait uses an infinite timeout, and its result is ignored; a failure does not skip the eye.
- The viewport and the copy to the window use view 0's *maximum* size, not the recommended one.
- The located-view count is not compared with the bootstrap view count.
- `release` deletes the framebuffer of every view-data entry, including entries whose
  framebuffer was never generated (name 0, which GL ignores).
- Only `XR_SUCCESS` passes `check`. A qualified success such as `XR_SESSION_LOSS_PENDING`
  counts as a failure, except for `xrWaitFrame` (`XR_UNQUALIFIED_SUCCESS`) and the buffer
  fills (the model takes any success code to fill the buffer).

## Model

| member | source | states |
|---|---|---|
| `OpenXR.ToInt32` | glutCube/OpenXRGL.h:365 | `(int32_t)` of a 32-bit size keeps values below 2^31 and wraps the rest by 2^32 |
| `OpenXR.ToUInt32` | glutCube/OpenXRGL.h:191 | `(uint32_t)` of the layer count keeps any value below 2^32 |
| `OpenXR.VersionMajor` | basic_info/basic_info.cpp:31 | XR_VERSION_MAJOR: bits 48-63 of the version, a value below 2^16 |
| `OpenXR.VersionMinor` | basic_info/basic_info.cpp:32 | XR_VERSION_MINOR: bits 32-47 of the version, a value below 2^16 |
| `OpenXR.VersionPatch` | basic_info/basic_info.cpp:33 | XR_VERSION_PATCH: bits 0-31 of the version, a value below 2^32 |
| `OpenXR.UnpackMakeVersion` | basic_info/basic_info.cpp:29-34 | major (bits 48-63), minor (bits 32-47) and patch (bits 0-31) of a packed version give back the packed fields |
| `OpenXR.MakeVersionOfFields` | basic_info/basic_info.cpp:29-34 | repacking the three fields of any 64-bit version gives the same version |
| `GlState.Check` | glutCube/OpenXRGL.h:215-226 | `check` passes iff the result is exactly XR_SUCCESS; passing implies success |
| `GlState.Resize` | glutCube/OpenXRGL.h:294-295 | `resize(n)` has length n, keeps the first n old entries and pads with value-initialised ones |
| `GlState.CountThenFill` | glutCube/OpenXRGL.h:228-246 | a two-call enumeration leaves the buffer alone unless the count query passes with a count above 0; after a successful fill the buffer holds exactly `count` filled entries |
| `GlState.CountThenFillCalls` | glutCube/OpenXRGL.h:228-246 | the count query (capacity 0) is always made; the fill (capacity = count) only after a passing, non-zero count |
| `Decimal.DecimalString` | basic_info/basic_info.cpp:31-33 | `std::to_string` of an unsigned value is a non-empty run of digits with no leading zero |
| `Decimal.DecimalRoundTrip` | basic_info/basic_info.cpp:31-33 | reading back the printed digits gives the number |
| `Decimal.DecimalStringInjective` | basic_info/basic_info.cpp:31-33 | different numbers print differently |
| `BasicInfo.XrWork` | basic_info/basic_info.cpp:16-27 | `xrWORK` is true iff the result is exactly XR_SUCCESS; other success codes and every error give false |
| `BasicInfo.VersionString` | basic_info/basic_info.cpp:29-34 | `toString(XrVersion)`: at least five characters, only digits and dots, starting and ending with a digit (the three fields in decimal joined by ".") |
| `BasicInfo.VersionStringRoundTrip` | basic_info/basic_info.cpp:29-34 | "major.minor.patch" of a version reads back to the same packed version |
| `BasicInfo.VersionStringInjective` | basic_info/basic_info.cpp:29-34 | different versions print differently |
| `BasicInfo.ViewConfigurationTypeName` | basic_info/basic_info.cpp:36-54 | the name is "Unknown Type" iff the value is not one of the four listed configuration types |
| `BasicInfo.ViewConfigurationTypeNameRoundTrip` | basic_info/basic_info.cpp:36-54 | each listed type's name leads back to that type; an unlisted value's name leads to none |
| `BasicInfo.BlendModeName` | basic_info/basic_info.cpp:56-71 | the name is "Unknown Mode" iff the value is not OPAQUE, ADDITIVE or ALPHA_BLEND |
| `BasicInfo.BlendModeNameRoundTrip` | basic_info/basic_info.cpp:56-71 | each listed mode's name leads back to that mode; an unlisted value's name leads to none |
| `BasicInfo.ApiLayerLine` | basic_info/basic_info.cpp:73-77 | `operator<<(XrApiLayerProperties)`: the line starts with the layer name and " (ver " and ends with "): " and the description |
| `BasicInfo.ApiLayerLineRoundTrip` | basic_info/basic_info.cpp:73-77 | between name and description the API-layer line carries the spec version's three fields and the layer version, in order, recoverably |
| `BasicInfo.ExtensionLine` | basic_info/basic_info.cpp:79-83 | `operator<<(XrExtensionProperties)`: the line starts with the extension name and " (ver ", and ends with ")" after at least one more character |
| `BasicInfo.ExtensionLineRoundTrip` | basic_info/basic_info.cpp:79-83 | the extension line is name + " (ver " + version + ")" and the version reads back |
| `BasicInfo.InstanceLine` | basic_info/basic_info.cpp:85-89 | `operator<<(XrInstanceProperties)`: the line starts with the runtime name and " (", and ends with ")" after at least one more character |
| `BasicInfo.InstanceLineRoundTrip` | basic_info/basic_info.cpp:85-89 | the instance line carries the runtime version's three fields in parentheses after the runtime name |
| `BasicInfo.ViewLine` | basic_info/basic_info.cpp:91-97 | `operator<<(XrViewConfigurationView)`: the line starts with a digit (the recommended width) and ends with ")]" |
| `BasicInfo.ViewLineRoundTrip` | basic_info/basic_info.cpp:91-97 | "W * H (MAX: mW * mH) [Swap chain: s(ms)]" holds the recommended and maximum sizes and sample counts in that order; reading it back gives the same record |
| `SessionEvents.FirstUnavailable` | glutCube/OpenXRGL.h:81-87 | the drain stops at the first poll reporting XR_EVENT_UNAVAILABLE; no earlier poll reports it |
| `SessionEvents.Delivered` | glutCube/OpenXRGL.h:81-89 | the events handled are the buffers of the polls before that one, in order; a failed poll leaves the untyped buffer |
| `SessionEvents.DrainState` | glutCube/OpenXRGL.h:89-92 | the state after a run of events is the old state or the state carried by one of its session-state-changed events |
| `SessionEvents.DrainCalls` | glutCube/OpenXRGL.h:79-109 | a drain makes at least one call per event plus one, and its last call is the poll that finds no event |
| `SessionEvents.DrainStateIsLastChange` | glutCube/OpenXRGL.h:89-92 | after the drain the state is the state of the last session-state-changed event |
| `SessionEvents.DrainStateWithoutChange` | glutCube/OpenXRGL.h:89-107 | without a session-state-changed event the state is unchanged |
| `SessionEvents.EventCallCounts` | glutCube/OpenXRGL.h:93-100 | one event costs one poll, one begin if READY, one end if STOPPING |
| `SessionEvents.HandledAppend` | glutCube/OpenXRGL.h:79-109 | the calls for earlier events precede the calls for later events |
| `SessionEvents.HandledCounts` | glutCube/OpenXRGL.h:89-101 | begins equal READY events, ends equal STOPPING events, polls equal events, and nothing else is called |
| `SessionEvents.DrainPollCount` | glutCube/OpenXRGL.h:81-87 | a drain polls once per delivered event plus once for the poll that finds none |
| `SessionEvents.IgnoredEventChangesNothing` | glutCube/OpenXRGL.h:105-106 | an event of any other type changes neither the state nor the calls beyond its poll |
| `FramePipeline.DrawCalls` | glutCube/OpenXRGL.h:111-204 | `draw` makes a call iff the session is in a renderable state, and its first call is then `xrWaitFrame` |
| `FramePipeline.DrawnViews` | glutCube/OpenXRGL.h:142-146 | `draw` never changes the number of projection views |
| `FramePipeline.EyeViews` | glutCube/OpenXRGL.h:136-140 | the per-eye loop walks as many views as the first xrLocateViews reported (0 if it failed) |
| `FramePipeline.PoseUpdated` | glutCube/OpenXRGL.h:142-146 | located view i overwrites only pose and fov of projection view i; later entries and every other field are kept |
| `FramePipeline.PoseUpdatedStep` | glutCube/OpenXRGL.h:142-146 | updating one more eye extends the update by exactly that entry |
| `FramePipeline.EyesCallsLayout` | glutCube/OpenXRGL.h:142-173 | eye i's acquire, image wait, draw and release sit at positions 4i..4i+3 and use eye i's swapchain and framebuffer |
| `FramePipeline.EyesCallsHoldNoFrameCall` | glutCube/OpenXRGL.h:142-173 | the per-eye calls contain no wait, begin or end frame |
| `FramePipeline.RenderCallsHoldNoFrameCall` | glutCube/OpenXRGL.h:131-187 | the rendering branch contains no wait, begin or end frame |
| `FramePipeline.DrawGate` | glutCube/OpenXRGL.h:114-128 | outside READY/SYNCHRONIZED/VISIBLE/FOCUSED no call is made; a failed wait is followed by no begin or end; in both cases nothing changes |
| `FramePipeline.FramePairing` | glutCube/OpenXRGL.h:120-197 | after a successful wait: wait first, begin second, end last, each exactly once, whatever `shouldRender` is |
| `FramePipeline.RenderedCalls` | glutCube/OpenXRGL.h:131-196 | a rendered frame is wait, begin, two locates, the eyes' calls, one copy of eye 0, and end with every layer |
| `FramePipeline.RenderedFrameLayout` | glutCube/OpenXRGL.h:131-196 | a rendered frame has 4n+6 calls; the end carries the predicted display time, the opaque blend mode, the layer count and the updated projection views |
| `FramePipeline.UnrenderedFrameLayout` | glutCube/OpenXRGL.h:189-196 | with `shouldRender` false the frame is wait, begin, and end with 0 layers at the predicted time, opaque; the projection views are kept |
| `Bootstrap.FirstFalse` | glutCube/OpenXRGL.h:35-45 | the first failing stage of a chain: every stage before it succeeded |
| `Bootstrap.ChainOutcome` | glutCube/OpenXRGL.h:35-45 | a chain succeeds iff every stage does; stages run are those up to and including the first failure |
| `Bootstrap.ChainOfFour` | glutCube/OpenXRGL.h:35-41 | a chain of four stops at its first failing stage |
| `Bootstrap.ChainAppend` | glutCube/OpenXRGL.h:35-45 | the second half of the chain is reached only when the first half succeeds entirely |
| `Bootstrap.ApplyEye` | glutCube/OpenXRGL.h:320-342 | an eye that succeeds holds its new swapchain and image list; a failed create leaves the eye as it was; the framebuffer is kept |
| `Bootstrap.FirstFailingEye` | glutCube/OpenXRGL.h:317-345 | the first eye whose create or two-call image enumeration fails (a zero count fails) |
| `Bootstrap.EyesTried` | glutCube/OpenXRGL.h:318-343 | the loop reaches the eyes up to and including the first failing one |
| `Bootstrap.TurnsTaken` | glutCube/OpenXRGL.h:318-343 | eyes not yet reached are untouched |
| `Bootstrap.TurnsTakenStep` | glutCube/OpenXRGL.h:318-343 | one more turn changes exactly the next eye |
| `Bootstrap.SwapchainsAfter` | glutCube/OpenXRGL.h:317-345 | eyes after the failing eye are untouched, and no eye's framebuffer changes |
| `Bootstrap.SwapchainsOk` | glutCube/OpenXRGL.h:317-345 | when no eye fails, every eye holds its swapchain and a non-empty image list |
| `Bootstrap.SwapchainCallSizes` | glutCube/OpenXRGL.h:304-320 | one create per eye reached, each at view 0's recommended width and height with one sample |
| `Bootstrap.ProjectionViewSkeleton` | glutCube/OpenXRGL.h:359-366 | projection view i references eye i's swapchain, array index 0, view 0's recommended extent (as int32), the projection-view type; pose and fov are kept |
| `Bootstrap.ProjectionViewTypeMismatch` | glutCube/OpenXRGL.h:361 | as written, each projection view carries the projection layer's structure type, not the projection view's type |
| `Bootstrap.PreparedViews` | glutCube/OpenXRGL.h:356-366 | corrected set-up: exactly one projection view per view-data entry, entry i set up for eye i with the projection-view type; pose and fov kept |
| `Bootstrap.ProjectionViewSkeletonAsWritten` | glutCube/OpenXRGL.h:359-366 | as written: projection view i carries the projection layer's type (35), eye i's swapchain, array index 0 and view 0's recommended extent (as int32); pose, fov and offset are kept |
| `Bootstrap.PreparedViewsAsWritten` | glutCube/OpenXRGL.h:356-366 | as written: exactly one projection view per view-data entry, entry i set up for eye i with the projection layer's type; pose and fov kept |
| `Bootstrap.PreparedViewsTypeMismatch` | glutCube/OpenXRGL.h:356-366 | the views the bridge builds differ from the corrected ones in the structure type alone |
| `Bootstrap.PreparedViewsIgnoreFrameBuffers` | glutCube/OpenXRGL.h:356-380 | the projection views depend on the eyes' swapchains only, so generating framebuffers afterwards leaves them as they were |
| `Bootstrap.CompositionLayer` | glutCube/OpenXRGL.h:368-369 | the appended layer is a projection layer over every projection view, in the reference space, with no flags |
| `Bootstrap.FrameBuffersAfter` | glutCube/OpenXRGL.h:374-380 | eye i receives the i-th generated framebuffer name; swapchains and images are kept |
| `Bootstrap.FrameBuffersReady` | glutCube/OpenXRGL.h:374-380 | generating framebuffers keeps the installed swapchains |
| `Bootstrap.ReleaseCalls` | glutCube/OpenXRGL.h:48-54 | one framebuffer deletion per eye in order, then the instance is destroyed |
| `Bootstrap.ReleaseAfterSwapchainFailure` | glutCube/OpenXRGL.h:48-54 | after a failure at the swapchain stage, release deletes only the name 0 for every eye, then destroys the instance |
| `OpenXRGL.RuntimeOutcomes` | glutCube/OpenXRGL.h:35-38 | the four runtime stages of `init`, one outcome each |
| `OpenXRGL.ViewOutcomes` | glutCube/OpenXRGL.h:39-43 | the four per-eye stages; laying out the layer and creating framebuffers cannot fail |
| `OpenXRGL.StageOutcomes` | glutCube/OpenXRGL.h:35-43 | the eight stages of `init`, in order |
| `OpenXRGL.SessionCalls` | glutCube/OpenXRGL.h:269-287 | `createSession` always looks up the requirements function first; the requirements query only after that passes, the session create only after both pass |
| `OpenXRGL.RuntimeStageCalls` | glutCube/OpenXRGL.h:35-38 | one call list per runtime stage of `init` |
| `OpenXRGL.ViewStageCalls` | glutCube/OpenXRGL.h:39-43 | one call list per per-eye stage of `init` |
| `OpenXRGL.StageCalls` | glutCube/OpenXRGL.h:35-43 | one call list per stage of `init`, in stage order |
| `OpenXRGL.EyesConfigured` | glutCube/OpenXRGL.h:289-300 | after a successful view configuration there is one eye per reported view |
| `OpenXRGL.InitOutcome` | glutCube/OpenXRGL.h:35-45 | `init` succeeds iff both halves of its chain do, and then the view configuration was read |
| `OpenXRGL.ViewStagesRun` | glutCube/OpenXRGL.h:39-43 | the per-eye half runs the view enumeration, then the swapchains only if it passed, then the layer (no call) and framebuffers only if every eye got a swapchain |
| `OpenXRGL.InitCallsSplit` | glutCube/OpenXRGL.h:35-45 | `init`'s calls are those of the runtime stages run, then, only when all four passed, those of the per-eye stages run |
| `OpenXRGL.StagesRunSplit` | glutCube/OpenXRGL.h:35-45 | the same split for the stages run |
| `OpenXRGL.RuntimeCallsOnSuccess` | glutCube/OpenXRGL.h:35-38 | when the four runtime stages pass they call instance, system, proc look-up, requirements, session and reference space, in that order |
| `OpenXRGL.ViewCallsOnSuccess` | glutCube/OpenXRGL.h:39-43 | when every per-eye stage passes they call the two view queries, each eye's swapchain calls at view 0's recommended size, then one framebuffer per eye |
| `OpenXRGL.InitCallsOnSuccess` | glutCube/OpenXRGL.h:32-46 | a successful `init` calls, in order: instance, system, proc look-up, requirements, session, reference space, the two view queries, each eye's swapchain calls at view 0's recommended size, one framebuffer per eye |
| `OpenXRGL.InitCallsOnInstanceFailure` | glutCube/OpenXRGL.h:35 | when the instance cannot be created, `init` makes no other call |
| `OpenXRGL.FirstFailingEyeStays` | glutCube/OpenXRGL.h:318-343 | once an eye has failed, looking at further eyes finds the same failing eye |
| `OpenXRGL.XrGl.constructor` | glutCube/OpenXRGL.h:26-30 | a new bridge is idle and has enumerated the API layers, then the extensions |
| `OpenXRGL.XrGl.EnumerateRuntime` | glutCube/OpenXRGL.h:28-29 | API layers first, then extensions, with both calls of each recorded |
| `OpenXRGL.XrGl.EnumerateApiLayers` | glutCube/OpenXRGL.h:228-236 | the API-layer list after the two-call enumeration, and its calls |
| `OpenXRGL.XrGl.EnumerateExtensions` | glutCube/OpenXRGL.h:238-246 | the extension list after the two-call enumeration, and its calls |
| `OpenXRGL.XrGl.UseExtension` | glutCube/OpenXRGL.h:56-66 | true iff some supported extension has the name; then exactly that name is appended, otherwise the list is unchanged; a repeated call appends again |
| `OpenXRGL.XrGl.BeginSession` | glutCube/OpenXRGL.h:68-72 | one xrBeginSession with the stereo configuration; true iff it returns XR_SUCCESS |
| `OpenXRGL.XrGl.EndSession` | glutCube/OpenXRGL.h:74-77 | one xrEndSession; true iff it returns XR_SUCCESS |
| `OpenXRGL.XrGl.ProcessEvent` | glutCube/OpenXRGL.h:79-109 | the state and calls after the drain are those of `DrainState` and `DrainCalls` over the delivered events |
| `OpenXRGL.XrGl.HandleEvent` | glutCube/OpenXRGL.h:89-107 | one event: a state change is recorded and READY/STOPPING issue begin/end |
| `OpenXRGL.XrGl.Draw` | glutCube/OpenXRGL.h:111-204 | the projection views and calls after one `draw` are `DrawnViews` and `DrawCalls` |
| `OpenXRGL.XrGl.RenderFrame` | glutCube/OpenXRGL.h:131-187 | the rendering branch: locate, every located eye, copy of eye 0 |
| `OpenXRGL.XrGl.RenderEyes` | glutCube/OpenXRGL.h:142-173 | the per-eye loop updates the projection views by `PoseUpdated` and makes the eyes' calls in order |
| `OpenXRGL.XrGl.RenderEyeView` | glutCube/OpenXRGL.h:144-172 | one eye: pose and fov taken over, then acquire, wait, draw, release on its swapchain |
| `OpenXRGL.XrGl.CreateInstance` | glutCube/OpenXRGL.h:248-261 | the instance is created as "TestApp" 1 / "TestEngine" 1 with the required extensions |
| `OpenXRGL.XrGl.GetSystem` | glutCube/OpenXRGL.h:263-267 | the system is asked for a head-mounted display |
| `OpenXRGL.XrGl.CreateSession` | glutCube/OpenXRGL.h:269-287 | proc lookup, then requirements, then session create, each only after the previous passed |
| `OpenXRGL.XrGl.CreateReferenceSpace` | glutCube/OpenXRGL.h:348-354 | a local space at orientation (0,0,0,-1), origin; the handle is stored on success |
| `OpenXRGL.XrGl.CheckViewConfiguration` | glutCube/OpenXRGL.h:289-300 | false when the count query fails or reports 0 views; otherwise views and view data both have the reported count, and the result is the fill's `check` |
| `OpenXRGL.XrGl.CreateSwapChain` | glutCube/OpenXRGL.h:302-346 | true iff no eye fails; the view data become `SwapchainsAfter`; the calls are those of the eyes tried |
| `OpenXRGL.XrGl.CreateEyeSwapchain` | glutCube/OpenXRGL.h:320-342 | one eye's turn is `ApplyEye`, and the loop goes on iff `EyeOk` |
| `OpenXRGL.XrGl.PrepareCompositionLayer` | glutCube/OpenXRGL.h:356-372 | always true; the projection views become `PreparedViewsAsWritten` (the type the code writes); exactly one layer over them is appended |
| `OpenXRGL.XrGl.CreateFrameBuffer` | glutCube/OpenXRGL.h:374-380 | always true; one framebuffer generated per eye |
| `OpenXRGL.XrGl.Release` | glutCube/OpenXRGL.h:48-54 | the calls of `ReleaseCalls` |
| `OpenXRGL.XrGl.Init` | glutCube/OpenXRGL.h:32-46 | the extension is asked for; the result is true iff every stage succeeds; the stages run and the trace grow by the stages up to the first failure and their `InitCalls`; space, views and view data are those of the stages run; on success every eye is ready, the projection views are `PreparedViewsAsWritten` and one layer is appended; otherwise the projection views and layers are unchanged |
| `OpenXRGL.XrGl.RunStages` | glutCube/OpenXRGL.h:35-45 | the eight-stage chain, short-circuiting: the per-eye stages and their calls follow only when all four runtime stages pass; a runtime failure leaves views and view data unchanged |
| `OpenXRGL.XrGl.StartRuntime` | glutCube/OpenXRGL.h:35-38 | instance, system, session, reference space, stopping at the first failure; the trace grows by the calls of the stages run; the space is stored only when its create passes |
| `OpenXRGL.XrGl.BuildViews` | glutCube/OpenXRGL.h:39-43 | view configuration, swapchains, layer, framebuffers, stopping at the first failure; the trace grows by those stages' calls; views and view data as the stages run leave them; on success the projection views and layer are those of `prepareCompositionLayer`, otherwise unchanged |
| `OpenXRGL.XrGl.ConfigureEyes` | glutCube/OpenXRGL.h:39-40 | swapchains are created only after the view configuration succeeds; the trace grows by the view queries and then the swapchain calls; the view data become `EyesConfigured` |
| `OpenXRGL.XrGl.InstallSwapchains` | glutCube/OpenXRGL.h:40 | the swapchain stage: the view data become `SwapchainsAfter` and the trace grows by the swapchain calls of the eyes tried; on success every eye holds its swapchain and images |
| `OpenXRGL.XrGl.PrepareTargets` | glutCube/OpenXRGL.h:41-43 | the layer stage, then the framebuffer stage: the projection views become `PreparedViewsAsWritten`, one layer is appended, each eye gets its framebuffer and one framebuffer call per eye is made |

## Left out

- `createProjectionMatrix` and `createModelViewMatrix` (glutCube/OpenXRGL.h:382-523): single-precision float arithmetic with `tanf`, which cannot be verified exactly. The draw callback receives the eye's fov and pose instead. The projection's `m[14] = -(near+near)` at glutCube/OpenXRGL.h:406 is not a standard finite-frustum term.
- The OpenXR runtime and the OpenGL/GLEW driver are foreign code. Their calls are trace events, and their answers are method parameters. GL framebuffer binding, attachment, `glFinish`, viewport, scissor and blit are folded into the `RenderEye` and `BlitToWindow` events.
- The console output of `check` and `xrWORK`, including the `xrResultToString` lookup: only the boolean result is modelled.
- The heap allocation of the projection layer at glutCube/OpenXRGL.h:368, which is never freed. The layer is a value in the layer list.
- `main` of basic_info/basic_info.cpp: a one-shot diagnostic dump of runtime queries to the console.
- glutCube/glutCube.cpp is not part of this model: windowing, the redisplay loop and the cube scene.
- OpenXRGL.XrGl.ProcessEvent: requires that some poll reports XR_EVENT_UNAVAILABLE. The source loops forever when the runtime keeps returning another code.
- OpenXRGL.XrGl.Draw: requires that every located eye has a view-data entry, a projection view and an in-range image index, because the source indexes without checking. When the acquire fails, the index the source reads is whatever the runtime left. It is a parameter here. It also requires view 0 after a successful wait (`m_vViews[0]` at glutCube/OpenXRGL.h:124-125) and eye 0 when a frame renders (`m_vViewDatas[0]` at glutCube/OpenXRGL.h:175); the source reads both without checking.
- Runtime calls that fail are taken to leave their output parameters unchanged. Handles are plain numbers, and the swapchain handle written by a failed create is not modelled.

## Findings

| source | as written | input that shows it | evidently intended | confidence | as-written member | corrected member |
|---|---|---|---|---|---|---|
| glutCube/OpenXRGL.h:361 | each `XrCompositionLayerProjectionView` gets `type = XR_TYPE_COMPOSITION_LAYER_PROJECTION` (35) | any call of `prepareCompositionLayer` with at least one view | `XR_TYPE_COMPOSITION_LAYER_PROJECTION_VIEW` (48), the type the OpenXR 1.0 specification requires of a projection view | high; not executed | `Bootstrap.ProjectionViewTypeMismatch` | `Bootstrap.ProjectionViewSkeleton` |
