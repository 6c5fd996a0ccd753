/** The parts of the OpenXR 1.0 API that the bridge and the diagnostic tool rely on:
    result codes and their classification, the enumerations they switch on, the packed
    version number, and the plain records the runtime fills in. Values are those of
    the OpenXR 1.0 headers. */
module OpenXR {

  // ----- fixed-width integers -------------------------------------------------

  const UINT32_LIMIT: int := 0x1_0000_0000
  const UINT64_LIMIT: int := 0x1_0000_0000_0000_0000

  type uint32 = x: int | 0 <= x < UINT32_LIMIT
  type int32 = x: int | -0x8000_0000 <= x < 0x8000_0000

  /** The C conversion `(int32_t)u` of an unsigned 32-bit value (two's complement wrap). */
  function ToInt32(u: uint32): (r: int32)
    ensures u < 0x8000_0000 ==> r == u
    ensures u >= 0x8000_0000 ==> r == u - UINT32_LIMIT
    ensures r % UINT32_LIMIT == u
  {
    if u < 0x8000_0000 then u else u - UINT32_LIMIT
  }

  /** The C conversion `(uint32_t)n` of a size: only the low 32 bits survive. */
  function ToUInt32(n: nat): (r: uint32)
    ensures n < UINT32_LIMIT ==> r == n
  {
    n % UINT32_LIMIT
  }

  // ----- XrResult ---------------------------------------------------------------

  type XrResult = int

  const XR_SUCCESS: XrResult := 0
  const XR_TIMEOUT_EXPIRED: XrResult := 1
  const XR_SESSION_LOSS_PENDING: XrResult := 3
  const XR_EVENT_UNAVAILABLE: XrResult := 4
  const XR_ERROR_VALIDATION_FAILURE: XrResult := -1
  const XR_ERROR_RUNTIME_FAILURE: XrResult := -2
  const XR_ERROR_SIZE_INSUFFICIENT: XrResult := -11

  /** XR_SUCCEEDED: every non-negative code reports success, possibly qualified. */
  predicate Succeeded(r: XrResult) { r >= 0 }

  /** XR_FAILED: negative codes are errors. */
  predicate Failed(r: XrResult) { r < 0 }

  /** XR_UNQUALIFIED_SUCCESS: only XR_SUCCESS itself. */
  predicate UnqualifiedSuccess(r: XrResult) { r == XR_SUCCESS }

  // ----- enumerations -----------------------------------------------------------

  type SessionState = int

  const XR_SESSION_STATE_UNKNOWN: SessionState := 0
  const XR_SESSION_STATE_IDLE: SessionState := 1
  const XR_SESSION_STATE_READY: SessionState := 2
  const XR_SESSION_STATE_SYNCHRONIZED: SessionState := 3
  const XR_SESSION_STATE_VISIBLE: SessionState := 4
  const XR_SESSION_STATE_FOCUSED: SessionState := 5
  const XR_SESSION_STATE_STOPPING: SessionState := 6
  const XR_SESSION_STATE_LOSS_PENDING: SessionState := 7
  const XR_SESSION_STATE_EXITING: SessionState := 8

  const XR_VIEW_CONFIGURATION_TYPE_PRIMARY_MONO: int := 1
  const XR_VIEW_CONFIGURATION_TYPE_PRIMARY_STEREO: int := 2
  const XR_VIEW_CONFIGURATION_TYPE_PRIMARY_QUAD_VARJO: int := 1000037000
  const XR_VIEW_CONFIGURATION_TYPE_SECONDARY_MONO_FIRST_PERSON_OBSERVER_MSFT: int := 1000054000

  const XR_ENVIRONMENT_BLEND_MODE_OPAQUE: int := 1
  const XR_ENVIRONMENT_BLEND_MODE_ADDITIVE: int := 2
  const XR_ENVIRONMENT_BLEND_MODE_ALPHA_BLEND: int := 3

  const XR_FORM_FACTOR_HEAD_MOUNTED_DISPLAY: int := 1
  const XR_REFERENCE_SPACE_TYPE_LOCAL: int := 2

  /** XrStructureType values that the bridge writes or reads. */
  const XR_TYPE_EVENT_DATA_BUFFER: int := 16
  const XR_TYPE_EVENT_DATA_SESSION_STATE_CHANGED: int := 18
  const XR_TYPE_COMPOSITION_LAYER_PROJECTION: int := 35
  const XR_TYPE_COMPOSITION_LAYER_PROJECTION_VIEW: int := 48

  /** XR_INFINITE_DURATION, the timeout of a swapchain image wait. */
  const XR_INFINITE_DURATION: int := 0x7fff_ffff_ffff_ffff

  const XR_KHR_OPENGL_ENABLE_EXTENSION_NAME: string := "XR_KHR_opengl_enable"

  // ----- XrVersion ----------------------------------------------------------------

  /** A 64-bit packed version: major in bits 48-63, minor in bits 32-47, patch in bits 0-31
      (section 2.1 of the OpenXR 1.0 specification). */
  type XrVersion = v: int | 0 <= v < UINT64_LIMIT

  const MAJOR_UNIT: int := 0x1_0000_0000_0000
  const MINOR_UNIT: int := 0x1_0000_0000

  /** XR_VERSION_MAJOR: `(version >> 48) & 0xffff`. */
  function VersionMajor(v: XrVersion): (major: nat)
    ensures major < 0x1_0000
  {
    v / MAJOR_UNIT
  }

  /** XR_VERSION_MINOR: `(version >> 32) & 0xffff`. */
  function VersionMinor(v: XrVersion): (minor: nat)
    ensures minor < 0x1_0000
  {
    (v / MINOR_UNIT) % 0x1_0000
  }

  /** XR_VERSION_PATCH: `version & 0xffffffff`. */
  function VersionPatch(v: XrVersion): (patch: nat)
    ensures patch < UINT32_LIMIT
  {
    v % MINOR_UNIT
  }

  /** XR_MAKE_VERSION, the packing the three accessors undo. */
  function MakeVersion(major: nat, minor: nat, patch: nat): (v: XrVersion)
    requires major < 0x1_0000 && minor < 0x1_0000 && patch < UINT32_LIMIT
  {
    major * MAJOR_UNIT + minor * MINOR_UNIT + patch
  }

  /** Unpacking a packed version gives back its three fields. */
  lemma UnpackMakeVersion(major: nat, minor: nat, patch: nat)
    requires major < 0x1_0000 && minor < 0x1_0000 && patch < UINT32_LIMIT
    ensures VersionMajor(MakeVersion(major, minor, patch)) == major
    ensures VersionMinor(MakeVersion(major, minor, patch)) == minor
    ensures VersionPatch(MakeVersion(major, minor, patch)) == patch
  {
    var v := MakeVersion(major, minor, patch);
    var low := minor * MINOR_UNIT + patch;
    assert 0 <= low < MAJOR_UNIT;
    DivModUnique(v, MAJOR_UNIT, major, low);
    DivModUnique(v, MINOR_UNIT, major * 0x1_0000 + minor, patch);
    DivModUnique(major * 0x1_0000 + minor, 0x1_0000, major, minor);
  }

  /** Packing the three fields of a version gives back the version. */
  lemma MakeVersionOfFields(v: XrVersion)
    ensures MakeVersion(VersionMajor(v), VersionMinor(v), VersionPatch(v)) == v
  {
    var q := v / MINOR_UNIT;
    assert v == q * MINOR_UNIT + v % MINOR_UNIT;
    assert q == (q / 0x1_0000) * 0x1_0000 + q % 0x1_0000;
    assert q / 0x1_0000 == v / MAJOR_UNIT by {
      DivDiv(v, MINOR_UNIT, 0x1_0000);
    }
  }

  lemma DivModUnique(n: int, d: int, q: int, r: int)
    requires d > 0 && 0 <= r < d && n == q * d + r
    ensures n / d == q && n % d == r
  {
    var q', r' := n / d, n % d;
    assert (q' - q) * d == r - r' by {
      assert q' * d + r' == q * d + r;
      MulSub(q', q, d);
    }
    if q' != q {
      var k := if q' > q then q' - q else q - q';
      assert k * d == r - r' || k * d == r' - r by { MulSub(q', q, d); MulSub(q, q', d); }
      MulAtLeast(k, d);
    }
  }

  lemma MulSub(a: int, b: int, d: int)
    ensures (a - b) * d == a * d - b * d
  {
  }

  lemma MulAtLeast(k: int, d: int)
    requires k >= 1 && d > 0
    ensures k * d >= d
  {
    assert k * d == (k - 1) * d + d;
    assert (k - 1) * d >= 0;
  }

  lemma DivDiv(n: nat, a: int, b: int)
    requires a > 0 && b > 0
    ensures (n / a) / b == n / (a * b)
  {
    var q := (n / a) / b;
    var r := (n / a) % b;
    var m := n % a;
    assert n / a == q * b + r;
    assert n == (n / a) * a + m;
    DivisionRegroup(n, a, b, q, r, m);
    RemainderBound(a, b, r, m);
    DivModUnique(n, a * b, q, r * a + m);
  }

  lemma DivisionRegroup(n: int, a: int, b: int, q: int, r: int, m: int)
    requires n == (q * b + r) * a + m
    ensures n == q * (a * b) + (r * a + m)
  {
    assert (q * b + r) * a == q * b * a + r * a;
    assert q * b * a == q * (a * b);
  }

  lemma RemainderBound(a: int, b: int, r: int, m: int)
    requires 0 <= r < b && 0 <= m < a
    ensures 0 <= r * a + m < a * b
  {
    assert r * a <= (b - 1) * a;
    assert (b - 1) * a == a * b - a;
  }

  // ----- records the runtime fills in ---------------------------------------------------

  /** XrApiLayerProperties (the structure-type header is implied). */
  datatype ApiLayerProperties = ApiLayerProperties(
    layerName: string, specVersion: XrVersion, layerVersion: uint32, description: string)

  /** XrExtensionProperties. */
  datatype ExtensionProperties = ExtensionProperties(extensionName: string, extensionVersion: uint32)

  /** XrInstanceProperties. */
  datatype InstanceProperties = InstanceProperties(runtimeVersion: XrVersion, runtimeName: string)

  /** XrViewConfigurationView: the render-target sizes the runtime recommends for one view. */
  datatype ViewConfigurationView = ViewConfigurationView(
    recommendedImageRectWidth: uint32, maxImageRectWidth: uint32,
    recommendedImageRectHeight: uint32, maxImageRectHeight: uint32,
    recommendedSwapchainSampleCount: uint32, maxSwapchainSampleCount: uint32)

  /** The contents of a value-initialised record, as `resize` leaves them. */
  const EMPTY_API_LAYER := ApiLayerProperties("", 0, 0, "")
  const EMPTY_EXTENSION := ExtensionProperties("", 0)
  const EMPTY_VIEW_CONFIGURATION_VIEW := ViewConfigurationView(0, 0, 0, 0, 0, 0)

  /** Poses and fields of view are only copied, never computed with, so exact reals do. */
  datatype Quaternionf = Quaternionf(x: real, y: real, z: real, w: real)
  datatype Vector3f = Vector3f(x: real, y: real, z: real)
  datatype Posef = Posef(orientation: Quaternionf, position: Vector3f)
  datatype Fovf = Fovf(angleLeft: real, angleRight: real, angleUp: real, angleDown: real)

  const ZERO_POSE := Posef(Quaternionf(0.0, 0.0, 0.0, 0.0), Vector3f(0.0, 0.0, 0.0))
  const ZERO_FOV := Fovf(0.0, 0.0, 0.0, 0.0)

  /** XrView: the located pose and field of view of one eye. */
  datatype View = View(pose: Posef, fov: Fovf)

  /** XrFrameState as returned by xrWaitFrame. */
  datatype FrameState = FrameState(predictedDisplayTime: int, shouldRender: bool)
}
