/** The helpers of the diagnostic tool that dumps what an OpenXR runtime offers: the
    success test it applies to every call, the names it prints for enumeration values,
    and the one-line formats of the records it lists. */
module BasicInfo {

  import opened OpenXR
  import opened Decimal
  import opened Wrappers

  /** xrWORK: a call worked only when it returned exactly XR_SUCCESS. Qualified
      successes (XR_TIMEOUT_EXPIRED, XR_EVENT_UNAVAILABLE, ...) count as not working. */
  function XrWork(rs: XrResult): (worked: bool)
    ensures worked <==> UnqualifiedSuccess(rs)
    ensures Succeeded(rs) && rs != XR_SUCCESS ==> !worked
    ensures Failed(rs) ==> !worked
  {
    rs == XR_SUCCESS
  }

  // ----- versions ---------------------------------------------------------------------

  /** toString(XrVersion): "major.minor.patch" in decimal. */
  function VersionString(v: XrVersion): (s: string)
    ensures |s| >= 5 && IsDigit(s[0]) && IsDigit(s[|s| - 1])
    ensures forall i :: 0 <= i < |s| ==> IsDigit(s[i]) || s[i] == '.'
  {
    DecimalString(VersionMajor(v)) + "." + DecimalString(VersionMinor(v)) + "." + DecimalString(VersionPatch(v))
  }

  const VERSION_TEMPLATE: seq<string> := ["", ".", ".", ""]

  /** Reads "major.minor.patch" back into a packed version. */
  function ParseVersion(s: string): Option<XrVersion>
  {
    match Parse(VERSION_TEMPLATE, s)
    case Some(ns) =>
      if |ns| == 3 && ns[0] < 0x1_0000 && ns[1] < 0x1_0000 && ns[2] < UINT32_LIMIT
      then Some(MakeVersion(ns[0], ns[1], ns[2])) else None
    case None => None
  }

  lemma VersionStringIsTemplate(v: XrVersion)
    ensures VersionString(v) == Render(VERSION_TEMPLATE, [VersionMajor(v), VersionMinor(v), VersionPatch(v)])
  {
    var a, b, c := DecimalString(VersionMajor(v)), DecimalString(VersionMinor(v)), DecimalString(VersionPatch(v));
    var nums := [VersionMajor(v), VersionMinor(v), VersionPatch(v)];
    assert Render(VERSION_TEMPLATE[3..], nums[3..]) == "";
    assert Render(VERSION_TEMPLATE[2..], nums[2..]) == "." + c + "";
    assert Render(VERSION_TEMPLATE[1..], nums[1..]) == "." + b + ("." + c + "");
    assert Render(VERSION_TEMPLATE, nums) == "" + a + ("." + b + ("." + c + ""));
  }

  /** The printed version loses nothing: reading it back gives the same packed version. */
  lemma VersionStringRoundTrip(v: XrVersion)
    ensures ParseVersion(VersionString(v)) == Some(v)
  {
    var nums := [VersionMajor(v), VersionMinor(v), VersionPatch(v)];
    VersionStringIsTemplate(v);
    ParseRender(VERSION_TEMPLATE, nums);
    MakeVersionOfFields(v);
  }

  /** Different versions print differently. */
  lemma VersionStringInjective(v: XrVersion, w: XrVersion)
    requires VersionString(v) == VersionString(w)
    ensures v == w
  {
    VersionStringRoundTrip(v);
    VersionStringRoundTrip(w);
  }

  // ----- enumeration names ----------------------------------------------------------------

  predicate KnownViewConfigurationType(t: int)
  {
    t == XR_VIEW_CONFIGURATION_TYPE_PRIMARY_MONO
    || t == XR_VIEW_CONFIGURATION_TYPE_PRIMARY_STEREO
    || t == XR_VIEW_CONFIGURATION_TYPE_PRIMARY_QUAD_VARJO
    || t == XR_VIEW_CONFIGURATION_TYPE_SECONDARY_MONO_FIRST_PERSON_OBSERVER_MSFT
  }

  const UNKNOWN_TYPE: string := "Unknown Type"

  /** toString(XrViewConfigurationType): the identifier of each of the four listed values,
      "Unknown Type" for every other value. */
  function ViewConfigurationTypeName(t: int): (name: string)
    ensures name == UNKNOWN_TYPE <==> !KnownViewConfigurationType(t)
  {
    if t == XR_VIEW_CONFIGURATION_TYPE_PRIMARY_MONO then "XR_VIEW_CONFIGURATION_TYPE_PRIMARY_MONO"
    else if t == XR_VIEW_CONFIGURATION_TYPE_PRIMARY_STEREO then "XR_VIEW_CONFIGURATION_TYPE_PRIMARY_STEREO"
    else if t == XR_VIEW_CONFIGURATION_TYPE_PRIMARY_QUAD_VARJO then "XR_VIEW_CONFIGURATION_TYPE_PRIMARY_QUAD_VARJO"
    else if t == XR_VIEW_CONFIGURATION_TYPE_SECONDARY_MONO_FIRST_PERSON_OBSERVER_MSFT then
      "XR_VIEW_CONFIGURATION_TYPE_SECONDARY_MONO_FIRST_PERSON_OBSERVER_MSFT"
    else UNKNOWN_TYPE
  }

  /** The reverse lookup: which listed value has this identifier. */
  function ViewConfigurationTypeOfName(name: string): Option<int>
  {
    if name == "XR_VIEW_CONFIGURATION_TYPE_PRIMARY_MONO" then Some(XR_VIEW_CONFIGURATION_TYPE_PRIMARY_MONO)
    else if name == "XR_VIEW_CONFIGURATION_TYPE_PRIMARY_STEREO" then Some(XR_VIEW_CONFIGURATION_TYPE_PRIMARY_STEREO)
    else if name == "XR_VIEW_CONFIGURATION_TYPE_PRIMARY_QUAD_VARJO" then Some(XR_VIEW_CONFIGURATION_TYPE_PRIMARY_QUAD_VARJO)
    else if name == "XR_VIEW_CONFIGURATION_TYPE_SECONDARY_MONO_FIRST_PERSON_OBSERVER_MSFT" then
      Some(XR_VIEW_CONFIGURATION_TYPE_SECONDARY_MONO_FIRST_PERSON_OBSERVER_MSFT)
    else None
  }

  /** Every listed value is named uniquely: its name leads back to it, and an unlisted
      value's name leads nowhere. */
  lemma ViewConfigurationTypeNameRoundTrip(t: int)
    ensures KnownViewConfigurationType(t) ==> ViewConfigurationTypeOfName(ViewConfigurationTypeName(t)) == Some(t)
    ensures !KnownViewConfigurationType(t) ==> ViewConfigurationTypeOfName(ViewConfigurationTypeName(t)) == None
  {
  }

  predicate KnownBlendMode(m: int)
  {
    m == XR_ENVIRONMENT_BLEND_MODE_OPAQUE
    || m == XR_ENVIRONMENT_BLEND_MODE_ADDITIVE
    || m == XR_ENVIRONMENT_BLEND_MODE_ALPHA_BLEND
  }

  const UNKNOWN_MODE: string := "Unknown Mode"

  /** toString(XrEnvironmentBlendMode): the identifier of OPAQUE, ADDITIVE and ALPHA_BLEND,
      "Unknown Mode" for every other value. */
  function BlendModeName(m: int): (name: string)
    ensures name == UNKNOWN_MODE <==> !KnownBlendMode(m)
  {
    if m == XR_ENVIRONMENT_BLEND_MODE_OPAQUE then "XR_ENVIRONMENT_BLEND_MODE_OPAQUE"
    else if m == XR_ENVIRONMENT_BLEND_MODE_ADDITIVE then "XR_ENVIRONMENT_BLEND_MODE_ADDITIVE"
    else if m == XR_ENVIRONMENT_BLEND_MODE_ALPHA_BLEND then "XR_ENVIRONMENT_BLEND_MODE_ALPHA_BLEND"
    else UNKNOWN_MODE
  }

  function BlendModeOfName(name: string): Option<int>
  {
    if name == "XR_ENVIRONMENT_BLEND_MODE_OPAQUE" then Some(XR_ENVIRONMENT_BLEND_MODE_OPAQUE)
    else if name == "XR_ENVIRONMENT_BLEND_MODE_ADDITIVE" then Some(XR_ENVIRONMENT_BLEND_MODE_ADDITIVE)
    else if name == "XR_ENVIRONMENT_BLEND_MODE_ALPHA_BLEND" then Some(XR_ENVIRONMENT_BLEND_MODE_ALPHA_BLEND)
    else None
  }

  lemma BlendModeNameRoundTrip(m: int)
    ensures KnownBlendMode(m) ==> BlendModeOfName(BlendModeName(m)) == Some(m)
    ensures !KnownBlendMode(m) ==> BlendModeOfName(BlendModeName(m)) == None
  {
  }

  // ----- record lines -----------------------------------------------------------------------

  /** operator<<(XrApiLayerProperties): "name (ver spec/layer): description". */
  function ApiLayerLine(p: ApiLayerProperties): (line: string)
    ensures p.layerName + " (ver " <= line
    ensures |line| >= |p.description| + 3 && line[|line| - |p.description| - 3..] == "): " + p.description
  {
    p.layerName + " (ver " + VersionString(p.specVersion) + "/" + DecimalString(p.layerVersion) + "): " + p.description
  }

  function ApiLayerTemplate(p: ApiLayerProperties): seq<string>
  {
    [p.layerName + " (ver ", ".", ".", "/", "): " + p.description]
  }

  /** A template with four numbers, unfolded. */
  lemma RenderFour(t: seq<string>, nums: seq<nat>)
    requires |t| == 5 && |nums| == 4
    ensures Render(t, nums)
         == t[0] + DecimalString(nums[0]) + (t[1] + DecimalString(nums[1]) + (t[2] + DecimalString(nums[2])
            + (t[3] + DecimalString(nums[3]) + t[4])))
  {
    assert Render(t[4..], nums[4..]) == t[4];
    assert Render(t[3..], nums[3..]) == t[3] + DecimalString(nums[3]) + t[4];
    assert Render(t[2..], nums[2..]) == t[2] + DecimalString(nums[2]) + Render(t[3..], nums[3..]);
    assert Render(t[1..], nums[1..]) == t[1] + DecimalString(nums[1]) + Render(t[2..], nums[2..]);
  }

  lemma ApiLayerRegroup(name: string, a: string, b: string, c: string, d: string, description: string)
    ensures name + " (ver " + a + ("." + b + ("." + c + ("/" + d + ("): " + description))))
         == name + " (ver " + (a + "." + b + "." + c) + "/" + d + "): " + description
  {
    var tail := "/" + d + "): " + description;
    assert "/" + d + ("): " + description) == tail;
    assert "." + c + tail == "." + c + "/" + d + "): " + description;
    var version := a + "." + b + "." + c;
    assert a + ("." + b + ("." + c + tail)) == version + tail;
    assert name + " (ver " + (version + tail) == name + " (ver " + version + tail;
  }

  lemma ApiLayerTemplateSeparated(p: ApiLayerProperties)
    ensures Separated(ApiLayerTemplate(p))
  {
    var t := ApiLayerTemplate(p);
    assert t[1][0] == '.' && t[2][0] == '.' && t[3][0] == '/' && t[4][0] == ')';
  }

  /** Between the layer's name and description the line carries the spec version's three
      fields and the layer version, in that order, and they can be read back. */
  lemma ApiLayerLineRoundTrip(p: ApiLayerProperties)
    ensures Parse(ApiLayerTemplate(p), ApiLayerLine(p))
         == Some([VersionMajor(p.specVersion), VersionMinor(p.specVersion), VersionPatch(p.specVersion), p.layerVersion])
  {
    var v := p.specVersion;
    var lits := ApiLayerTemplate(p);
    var nums := [VersionMajor(v), VersionMinor(v), VersionPatch(v), p.layerVersion as nat];
    RenderFour(lits, nums);
    ApiLayerRegroup(p.layerName, DecimalString(nums[0]), DecimalString(nums[1]), DecimalString(nums[2]),
                    DecimalString(nums[3]), p.description);
    assert Render(lits, nums) == ApiLayerLine(p);
    ApiLayerTemplateSeparated(p);
    ParseRender(lits, nums);
  }

  /** operator<<(XrExtensionProperties): "name (ver version)". */
  function ExtensionLine(e: ExtensionProperties): (line: string)
    ensures e.extensionName + " (ver " <= line
    ensures |line| > |e.extensionName| + 6 && line[|line| - 1] == ')'
  {
    e.extensionName + " (ver " + DecimalString(e.extensionVersion) + ")"
  }

  /** After the name the line carries exactly the extension's version, and it can be read back. */
  lemma ExtensionLineRoundTrip(e: ExtensionProperties)
    ensures Parse([e.extensionName + " (ver ", ")"], ExtensionLine(e)) == Some([e.extensionVersion as nat])
  {
    var lits := [e.extensionName + " (ver ", ")"];
    var nums := [e.extensionVersion as nat];
    assert Render(lits, nums) == ExtensionLine(e);
    ParseRender(lits, nums);
  }

  /** operator<<(XrInstanceProperties): "runtime name (version)". */
  function InstanceLine(p: InstanceProperties): (line: string)
    ensures p.runtimeName + " (" <= line
    ensures |line| > |p.runtimeName| + 2 && line[|line| - 1] == ')'
  {
    p.runtimeName + " (" + VersionString(p.runtimeVersion) + ")"
  }

  lemma InstanceLineRoundTrip(p: InstanceProperties)
    ensures Parse([p.runtimeName + " (", ".", ".", ")"], InstanceLine(p))
         == Some([VersionMajor(p.runtimeVersion), VersionMinor(p.runtimeVersion), VersionPatch(p.runtimeVersion)])
  {
    var v := p.runtimeVersion;
    var lits := [p.runtimeName + " (", ".", ".", ")"];
    var nums := [VersionMajor(v), VersionMinor(v), VersionPatch(v)];
    var a, b, c := DecimalString(nums[0]), DecimalString(nums[1]), DecimalString(nums[2]);
    assert Render(lits[3..], nums[3..]) == lits[3];
    assert Render(lits[2..], nums[2..]) == lits[2] + c + lits[3];
    assert Render(lits[1..], nums[1..]) == lits[1] + b + (lits[2] + c + lits[3]);
    calc {
      Render(lits, nums);
      lits[0] + a + (lits[1] + b + (lits[2] + c + lits[3]));
      p.runtimeName + " (" + (a + "." + b + "." + c) + ")";
      InstanceLine(p);
    }
    ParseRender(lits, nums);
  }

  /** operator<<(XrViewConfigurationView):
      "W * H (MAX: mW * mH) [Swap chain: s(ms)]". */
  function ViewLine(v: ViewConfigurationView): (line: string)
    ensures |line| >= 2 && IsDigit(line[0]) && line[|line| - 2..] == ")]"
  {
    DecimalString(v.recommendedImageRectWidth) + " * " + DecimalString(v.recommendedImageRectHeight)
    + " (MAX: " + DecimalString(v.maxImageRectWidth) + " * " + DecimalString(v.maxImageRectHeight) + ")"
    + " [Swap chain: " + DecimalString(v.recommendedSwapchainSampleCount) + "(" + DecimalString(v.maxSwapchainSampleCount) + ")]"
  }

  const VIEW_TEMPLATE: seq<string> := ["", " * ", " (MAX: ", " * ", ") [Swap chain: ", "(", ")]"]

  /** Reads a view line back into the record it describes. */
  function ParseViewLine(s: string): Option<ViewConfigurationView>
  {
    match Parse(VIEW_TEMPLATE, s)
    case Some(ns) => ViewOfFields(ns)
    case None => None
  }

  /** The record a view line's six numbers stand for, if they fit its fields. */
  function ViewOfFields(ns: seq<nat>): Option<ViewConfigurationView>
  {
    if |ns| == 6 && ns[0] < UINT32_LIMIT && ns[1] < UINT32_LIMIT && ns[2] < UINT32_LIMIT
       && ns[3] < UINT32_LIMIT && ns[4] < UINT32_LIMIT && ns[5] < UINT32_LIMIT
    then Some(ViewConfigurationView(ns[0], ns[2], ns[1], ns[3], ns[4], ns[5])) else None
  }

  function ViewFields(v: ViewConfigurationView): seq<nat>
  {
    [v.recommendedImageRectWidth as nat, v.recommendedImageRectHeight as nat,
     v.maxImageRectWidth as nat, v.maxImageRectHeight as nat,
     v.recommendedSwapchainSampleCount as nat, v.maxSwapchainSampleCount as nat]
  }

  lemma RenderSix(t: seq<string>, nums: seq<nat>)
    requires |t| == 7 && |nums| == 6
    ensures Render(t, nums)
         == t[0] + DecimalString(nums[0]) + (t[1] + DecimalString(nums[1]) + (t[2] + DecimalString(nums[2])
            + (t[3] + DecimalString(nums[3]) + (t[4] + DecimalString(nums[4]) + (t[5] + DecimalString(nums[5]) + t[6])))))
  {
    assert Render(t[6..], nums[6..]) == t[6];
    assert Render(t[5..], nums[5..]) == t[5] + DecimalString(nums[5]) + t[6];
    assert Render(t[4..], nums[4..]) == t[4] + DecimalString(nums[4]) + Render(t[5..], nums[5..]);
    assert Render(t[3..], nums[3..]) == t[3] + DecimalString(nums[3]) + Render(t[4..], nums[4..]);
    assert Render(t[2..], nums[2..]) == t[2] + DecimalString(nums[2]) + Render(t[3..], nums[3..]);
    assert Render(t[1..], nums[1..]) == t[1] + DecimalString(nums[1]) + Render(t[2..], nums[2..]);
  }

  lemma ViewLineRegroupSamples(d4: string, d5: string)
    ensures ") [Swap chain: " + d4 + ("(" + d5 + ")]") == ")" + " [Swap chain: " + d4 + "(" + d5 + ")]"
  {
    assert ")" + " [Swap chain: " == ") [Swap chain: ";
  }

  lemma ViewLineRegroup(d0: string, d1: string, d2: string, d3: string, d4: string, d5: string)
    ensures "" + d0 + (" * " + d1 + (" (MAX: " + d2 + (" * " + d3 + (") [Swap chain: " + d4 + ("(" + d5 + ")]")))))
         == d0 + " * " + d1 + " (MAX: " + d2 + " * " + d3 + ")" + " [Swap chain: " + d4 + "(" + d5 + ")]"
  {
    var t4 := ") [Swap chain: " + d4 + ("(" + d5 + ")]");
    ViewLineRegroupSamples(d4, d5);
    var t2 := " (MAX: " + d2 + (" * " + d3 + t4);
    assert t2 == " (MAX: " + d2 + " * " + d3 + t4;
    assert "" + d0 + (" * " + d1 + t2) == d0 + " * " + d1 + t2;
  }

  lemma ViewLineIsTemplate(v: ViewConfigurationView)
    ensures ViewLine(v) == Render(VIEW_TEMPLATE, ViewFields(v))
  {
    var nums := ViewFields(v);
    RenderSix(VIEW_TEMPLATE, nums);
    ViewLineRegroup(DecimalString(nums[0]), DecimalString(nums[1]), DecimalString(nums[2]),
            DecimalString(nums[3]), DecimalString(nums[4]), DecimalString(nums[5]));
  }

  /** The six numbers of a view line are, in order, the recommended width and height, the
      maximum width and height, and the recommended and maximum sample counts; reading the
      line back gives the same record. */
  lemma ViewLineRoundTrip(v: ViewConfigurationView)
    ensures ParseViewLine(ViewLine(v)) == Some(v)
  {
    var line := ViewLine(v);
    var ns := ViewFields(v);
    assert Parse(VIEW_TEMPLATE, line) == Some(ns) by {
      ViewLineIsTemplate(v);
      ViewTemplateSeparated();
      ParseRender(VIEW_TEMPLATE, ns);
    }
    assert ViewConfigurationView(ns[0], ns[2], ns[1], ns[3], ns[4], ns[5]) == v;
  }

  lemma ViewTemplateSeparated()
    ensures Separated(VIEW_TEMPLATE)
  {
    var t := VIEW_TEMPLATE;
    assert t[1][0] == ' ' && t[2][0] == ' ' && t[3][0] == ' ';
    assert t[4][0] == ')' && t[5][0] == '(' && t[6][0] == ')';
  }
}
